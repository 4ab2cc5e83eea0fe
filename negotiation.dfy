/**
 * The client-side coordinator of a one-to-one negotiation: it starts
 * the session, runs the loop that asks the agent for an action and
 * carries it out, routes the counterparty's replies, and summarises the
 * outcome. Every state change goes through `StateManager.EmitEvent`.
 */
module NegotiationCoordination {
  import opened Wrappers
  import opened Json
  import opened Types
  import opened Events
  import opened SessionStates
  import opened StateManagement
  import opened MessageParsing
  import opened Messages
  import opened Coordination
  import Text

  // ---------------------------------------------------------------------
  // Recovering the final price from the log

  /** `i` is the position of the most recent OFFER_ACCEPTED event of `log`. */
  predicate IsLastAccepted(log: seq<Event>, i: nat) {
    i < |log| && log[i].eventType == OfferAccepted
    && forall j | i < j < |log| :: log[j].eventType != OfferAccepted
  }

  /** The position of the most recent OFFER_ACCEPTED event, if there is one. */
  function LastAccepted(log: seq<Event>): (r: Option<nat>)
    ensures r.Some? ==> IsLastAccepted(log, r.value)
    ensures r.None? ==> forall j | 0 <= j < |log| :: log[j].eventType != OfferAccepted
  {
    if log == [] then None
    else if log[|log| - 1].eventType == OfferAccepted then Some(|log| - 1)
    else
      var r := LastAccepted(log[..|log| - 1]);
      assert forall j | 0 <= j < |log| - 1 :: log[..|log| - 1][j] == log[j];
      r
  }

  /** The most recent OFFER_ACCEPTED event is unique. */
  lemma LastAcceptedUnique(log: seq<Event>, i: nat)
    requires IsLastAccepted(log, i)
    ensures LastAccepted(log) == Some(i)
  {
  }

  /** An event other than OFFER_ACCEPTED leaves the most recent acceptance where it was. */
  lemma LastAcceptedSkips(log: seq<Event>, e: Event)
    requires e.eventType != OfferAccepted
    ensures LastAccepted(log + [e]) == LastAccepted(log)
  {
    assert (log + [e])[..|log|] == log;
  }

  /** An event other than OFFER_ACCEPTED leaves the final price as it was. */
  lemma FinalPriceSkips(sid: string, log: seq<Event>, e: Event, n: NegotiationView)
    requires e.eventType != OfferAccepted
    ensures FinalPrice(sid, log + [e], n) == FinalPrice(sid, log, n)
  {
    LastAcceptedSkips(log, e);
    if LastAccepted(log).Some? {
      assert (log + [e])[LastAccepted(log).value] == log[LastAccepted(log).value];
    }
  }

  /** The reverse scan of `_complete_session`: walks the log from its end to the first OFFER_ACCEPTED. */
  method FindLastAccepted(log: seq<Event>) returns (r: Option<nat>)
    ensures r == LastAccepted(log)
  {
    var i := |log|;
    while i > 0
      invariant 0 <= i <= |log|
      invariant forall j | i <= j < |log| :: log[j].eventType != OfferAccepted
    {
      i := i - 1;
      if log[i].eventType == OfferAccepted {
        LastAcceptedUnique(log, i);
        return Some(i);
      }
    }
    return None;
  }

  /** `str(e)` of the ValueError `_complete_session` raises when no acceptance names an offer. */
  function NoAcceptanceError(sid: string): string {
    "Session completed but no OFFER_ACCEPTED event found for " + sid
  }

  /** `str(e)` of the ValueError `_complete_session` raises when the accepted id is neither sent nor received. */
  function UnknownAcceptedError(id: string, sid: string): string {
    "Accepted offer_id " + id + " not found in sent or received offers for " + sid
  }

  /**
   * The price of the offer an acceptance payload names:
   * `action_data.get("offer_id")` looked up among the offers sent
   * first and the offers received second. A non-dict payload raises
   * AttributeError, a list or dict id TypeError, and a falsy id or an id
   * in neither map ValueError; each failure carries `str(e)`.
   */
  function NamedPrice(sid: string, actionData: Json, n: NegotiationView): (r: Result<int>)
    ensures r.Success? <==> actionData.JObj? && Get(actionData.fields, "offer_id").JStr?
                            && var id := Get(actionData.fields, "offer_id").s;
                               id != "" && (id in n.offersSent.entries || id in n.offersReceived.entries)
    ensures r.Success? ==> var id := Get(actionData.fields, "offer_id").s;
      r.value == if id in n.offersSent.entries then n.offersSent.entries[id].price else n.offersReceived.entries[id].price
    ensures actionData.JObj? && !Truthy(Get(actionData.fields, "offer_id")) ==> r == Failure(NoAcceptanceError(sid))
    ensures actionData.JObj? && Get(actionData.fields, "offer_id").JStr? ==>
      var id := Get(actionData.fields, "offer_id").s;
      id != "" && id !in n.offersSent.entries && id !in n.offersReceived.entries ==>
        r == Failure(UnknownAcceptedError(id, sid))
  {
    if !actionData.JObj? then Failure("'" + TypeName(actionData) + "' object has no attribute 'get'")
    else
      var id := Get(actionData.fields, "offer_id");
      if !Truthy(id) then Failure(NoAcceptanceError(sid))
      else if id.JStr? && id.s in n.offersSent.entries then Success(n.offersSent.entries[id.s].price)
      else if id.JStr? && id.s in n.offersReceived.entries then Success(n.offersReceived.entries[id.s].price)
      else if id.JArr? || id.JObj? then Failure("unhashable type: '" + TypeName(id) + "'")
      else Failure(UnknownAcceptedError(ScalarText(id), sid))
  }

  /** The `action_data` an OFFER_ACCEPTED event carries, `{}` when absent. */
  function AcceptancePayload(e: Event): Json {
    GetOr(e.data, "action_data", JObj(map[]))
  }

  /**
   * `final_price` of a completed negotiation: what the most recent
   * OFFER_ACCEPTED event's payload names; with no such event, ValueError.
   */
  function FinalPrice(sid: string, log: seq<Event>, n: NegotiationView): (r: Result<int>)
    ensures LastAccepted(log).None? ==> r == Failure(NoAcceptanceError(sid))
    ensures LastAccepted(log).Some? ==> r == NamedPrice(sid, AcceptancePayload(log[LastAccepted(log).value]), n)
  {
    match LastAccepted(log)
    case None => Failure(NoAcceptanceError(sid))
    case Some(i) => NamedPrice(sid, AcceptancePayload(log[i]), n)
  }

  /** A new OFFER_ACCEPTED event decides the final price by itself. */
  lemma FinalPriceOfNewest(sid: string, log: seq<Event>, e: Event, n: NegotiationView)
    requires e.eventType == OfferAccepted
    ensures FinalPrice(sid, log + [e], n) == NamedPrice(sid, AcceptancePayload(e), n)
  {
    assert IsLastAccepted(log + [e], |log|);
    LastAcceptedUnique(log + [e], |log|);
  }

  /** The lookup `_complete_session` makes, scan first. */
  method AcceptedPrice(sid: string, log: seq<Event>, n: NegotiationView) returns (r: Result<int>)
    ensures r == FinalPrice(sid, log, n)
  {
    var found := FindLastAccepted(log);
    if found.None? {
      return Failure(NoAcceptanceError(sid));
    }
    var actionData := GetOr(log[found.value].data, "action_data", JObj(map[]));
    if !actionData.JObj? {
      return Failure("'" + TypeName(actionData) + "' object has no attribute 'get'");
    }
    var id := Get(actionData.fields, "offer_id");
    if !Truthy(id) {
      return Failure(NoAcceptanceError(sid));
    }
    if id.JStr? && id.s in n.offersSent.entries {
      r := Success(n.offersSent.entries[id.s].price);
    } else if id.JStr? && id.s in n.offersReceived.entries {
      r := Success(n.offersReceived.entries[id.s].price);
    } else if id.JArr? || id.JObj? {
      r := Failure("unhashable type: '" + TypeName(id) + "'");
    } else {
      r := Failure(UnknownAcceptedError(ScalarText(id), sid));
    }
  }

  /** The final price depends only on the log and the two offer maps. */
  lemma SameOffersSamePrice(sid: string, log: seq<Event>, n: NegotiationView, n': NegotiationView)
    requires n'.offersSent == n.offersSent && n'.offersReceived == n.offersReceived
    ensures FinalPrice(sid, log, n') == FinalPrice(sid, log, n)
  {
  }

  /** `get_events` with no filter is the whole log. */
  lemma {:induction false} UnfilteredIsLog(log: seq<Event>)
    ensures FilterEvents(log, None, None, None) == log
  {
    if log != [] {
      UnfilteredIsLog(log[1..]);
    }
  }

  /** The event `_complete_session` emits for a requested status: only completion and failure have one. */
  function CompletionEvents(status: Status): seq<EventType> {
    if status == Completed then [SessionCompleted] else if status == Failed then [SessionFailed] else []
  }

  /** The state after `_complete_session`'s event, if any. */
  function Concluded(n: NegotiationView, status: Status, now: Timestamp): NegotiationView {
    if status == Completed || status == Failed then n.(base := n.base.(status := status, updatedAt := now)) else n
  }

  /** SESSION_COMPLETED and SESSION_FAILED set their status and the update time, and nothing else. */
  lemma ConcludingFold(n: NegotiationView, e: Event, status: Status)
    requires status == Completed || status == Failed
    requires e.eventType == (if status == Completed then SessionCompleted else SessionFailed)
    ensures Fold(NegotiationSession(n), e, e.timestamp) == NegotiationSession(Concluded(n, status, e.timestamp))
  {
  }

  /** The summary `_complete_session` returns for a session it found with state `n`. */
  function Summary(sid: string, n: NegotiationView, status: Status, reason: string, price: Option<int>,
                   now: Timestamp): (r: CoordinatorResult)
    ensures r.status == status && r.message == reason && r.sessionId == sid && r.sessionType == Negotiation
    ensures r.data.NegotiationData? && r.data.rounds == n.currentRound && r.data.finalPrice == price
    ensures r.data.agreed <==> status == Completed
    ensures r.data.lastOffer == n.lastOfferReceived && r.data.startedAt == n.base.createdAt && r.data.completedAt == now
  {
    CoordinatorResult(status, sid, Negotiation,
      NegotiationData(n.currentRound, n.lastOfferReceived, n.base.createdAt, now, price, status == Completed), reason)
  }

  /**
   * What `_complete_session` does to a stored session with state `n` and
   * log `log`, leaving `log'` and `after`: the completion event, the
   * status it sets, and a result whose status is the one requested,
   * whose rounds are the current round and which is agreed exactly when
   * completed — with the final price of the most recent acceptance, or
   * the exception finding it raises.
   */
  ghost predicate Concludes(sid: string, n: NegotiationView, log: seq<Event>, log': seq<Event>, after: SessionView,
                            status: Status, reason: string, now: Timestamp, r: Result<CoordinatorResult>)
  {
    && Appended(log, log', CompletionEvents(status))
    && after == NegotiationSession(Concluded(n, status, now))
    && (status != Completed ==> r == Success(Summary(sid, n, status, reason, None, now)))
    && (status == Completed ==> r == match FinalPrice(sid, log, n)
                                     case Success(p) => Success(Summary(sid, n, status, reason, Some(p), now))
                                     case Failure(e) => Failure(e))
  }

  /**
   * A result is agreed only when it is completed with a final price; the
   * rest report no price.
   */
  lemma SummaryAgreedOnlyCompleted(sid: string, n: NegotiationView, status: Status, reason: string,
                                   price: Option<int>, now: Timestamp)
    requires status == Completed <==> price.Some?
    ensures var s := Summary(sid, n, status, reason, price, now);
      && s.data.agreed == (s.status == Completed)
      && (s.data.agreed <==> s.data.finalPrice.Some?)
      && s.data.rounds == n.currentRound
  {
  }

  /**
   * A result that reports the session `sid` as `states` then holds it:
   * about this negotiation, with the status the session has, and agreed
   * exactly when completed, which is also exactly when it has a final price.
   */
  ghost predicate Reports(sid: string, c: CoordinatorResult, states: map<string, SessionView>) {
    && sid in states && states[sid].NegotiationSession?
    && c.sessionId == sid && c.sessionType == Negotiation
    && c.status == states[sid].n.base.status
    && c.data.NegotiationData?
    && (c.data.agreed <==> c.status == Completed)
    && (c.data.agreed <==> c.data.finalPrice.Some?)
  }

  /** `_complete_session` on a stored session reports the status it asks for, once that status is in place. */
  lemma ConcludesReports(sid: string, n: NegotiationView, log: seq<Event>, log': seq<Event>, status: Status,
                         reason: string, now: Timestamp, r: Result<CoordinatorResult>, states: map<string, SessionView>)
    requires status == Completed || status == Failed || status == n.base.status
    requires sid in states && Concludes(sid, n, log, log', states[sid], status, reason, now, r)
    requires r.Success?
    ensures Reports(sid, r.value, states)
  {
  }

  /** `log'` extends `log`: events are only ever appended. */
  ghost predicate Extends(log: seq<Event>, log': seq<Event>) {
    |log| <= |log'| && log'[..|log|] == log
  }

  /** Extending is transitive. */
  lemma ExtendsTrans(a: seq<Event>, b: seq<Event>, c: seq<Event>)
    requires Extends(a, b) && Extends(b, c)
    ensures Extends(a, c)
  {
    assert c[..|a|] == c[..|b|][..|a|];
  }

  /** A log that extends `before + [e]` extends `before`, with `e` right after it. */
  lemma ExtendsPast(before: seq<Event>, e: Event, log: seq<Event>)
    requires Extends(before + [e], log)
    ensures Extends(before, log) && |log| > |before| && log[|before|] == e
  {
    assert log[..|before|] == (before + [e])[..|before|];
  }

  lemma AppendedExtends(log: seq<Event>, log': seq<Event>, ts: seq<EventType>)
    requires Appended(log, log', ts)
    ensures Extends(log, log')
  {
  }

  /** DISCOVERY_RECEIVED appends one entry to `discovery_messages`. */
  function WithDiscovery(n: NegotiationView, data: Json, ctx: Option<string>, now: Timestamp): NegotiationView {
    n.(base := n.base.(updatedAt := now), discoveryMessages := n.discoveryMessages + [DiscoveryEntry(data, now, ctx)])
  }

  /**
   * OFFER_RECEIVED followed by NEGOTIATION_ROUND_STARTED: the offer is
   * stored and is the last one received, and the round advances by one.
   */
  function WithOfferRound(n: NegotiationView, o: Offer, now: Timestamp): NegotiationView {
    n.(base := n.base.(updatedAt := now), offersReceived := n.offersReceived.Put(o.offerId, o),
       lastOfferReceived := Some(o), currentRound := n.currentRound + 1)
  }

  /** `state.max_rounds and state.current_round >= state.max_rounds`. */
  predicate RoundLimitReached(n: NegotiationView) {
    n.maxRounds.Some? && n.maxRounds.value != 0 && n.currentRound >= n.maxRounds.value
  }

  const MaxRoundsReason := "Maximum rounds reached without agreement"

  lemma DiscoveryFold(n: NegotiationView, e: Event, data: Json)
    requires e.eventType == DiscoveryReceived && e.data == map["discovery_data" := data]
    ensures Fold(NegotiationSession(n), e, e.timestamp) == NegotiationSession(WithDiscovery(n, data, e.contextId, e.timestamp))
  {
  }

  /** OFFER_RECEIVED carrying a readable offer stores it as the last one received. */
  function WithOfferReceived(n: NegotiationView, o: Offer, now: Timestamp): NegotiationView {
    n.(base := n.base.(updatedAt := now), offersReceived := n.offersReceived.Put(o.offerId, o), lastOfferReceived := Some(o))
  }

  lemma OfferReceivedFold(n: NegotiationView, e: Event, o: Offer)
    requires e.eventType == OfferReceived && ReadOffer(e, e.timestamp) == Read(o)
    ensures Fold(NegotiationSession(n), e, e.timestamp) == NegotiationSession(WithOfferReceived(n, o, e.timestamp))
  {
  }

  lemma RoundStartedFold(n: NegotiationView, e: Event, round: int)
    requires e.eventType == NegotiationRoundStarted && e.data == map["round_number" := JNum(round)]
    ensures Fold(NegotiationSession(n), e, e.timestamp)
         == NegotiationSession(n.(base := n.base.(updatedAt := e.timestamp), currentRound := round))
  {
    assert NumOr(e.data, "round_number", n.currentRound + 1) == round;
  }

  /**
   * What `_handle_offer` does for a stored session `n` whose message
   * carries the offer `o`: OFFER_RECEIVED with the offer's dictionary
   * and the message's context, then the round event numbered one past
   * the current round; if that reaches a non-zero `max_rounds`, the
   * session fails and the result says so.
   */
  ghost predicate OfferRecorded(sid: string, n: NegotiationView, o: Offer, ctx: Option<string>, log: seq<Event>,
                                log': seq<Event>, after: SessionView, now: Timestamp, r: Result<Option<CoordinatorResult>>)
  {
    var n1 := WithOfferRound(n, o, now);
    var limit := RoundLimitReached(n1);
    && Appended(log, log', [OfferReceived, NegotiationRoundStarted] + (if limit then [SessionFailed] else []))
    && log'[|log|].data == map["offer" := JObj(OfferToDict(o))] && log'[|log|].contextId == ctx
    && log'[|log| + 1].data == map["round_number" := JNum(n.currentRound + 1)]
    && (if limit then
          after == NegotiationSession(Concluded(n1, Failed, now))
          && r == Success(Some(Summary(sid, n1, Failed, MaxRoundsReason, None, now)))
        else after == NegotiationSession(n1) && r == Success(None))
  }

  /** The two offer events, and then `_complete_session` when the limit is reached, establish `OfferRecorded`. */
  lemma OfferRecordedSteps(sid: string, n: NegotiationView, o: Offer, ctx: Option<string>, log: seq<Event>,
                           e1: Event, e2: Event, log': seq<Event>, after: SessionView, now: Timestamp,
                           c: Result<CoordinatorResult>, r: Result<Option<CoordinatorResult>>)
    requires e1.eventType == OfferReceived && e1.data == map["offer" := JObj(OfferToDict(o))] && e1.contextId == ctx
    requires e2.eventType == NegotiationRoundStarted && e2.data == map["round_number" := JNum(n.currentRound + 1)]
    requires var n1 := WithOfferRound(n, o, now);
      if RoundLimitReached(n1) then
        Concludes(sid, n1, log + [e1, e2], log', after, Failed, MaxRoundsReason, now, c) && r == Success(Some(c.value))
      else log' == log + [e1, e2] && after == NegotiationSession(n1) && r == Success(None)
    ensures OfferRecorded(sid, n, o, ctx, log, log', after, now, r)
  {
    var mid := log + [e1, e2];
    assert Appended(log, mid, [OfferReceived, NegotiationRoundStarted]) by {
      assert mid[..|log|] == log;
      assert mid[|log|..] == [e1, e2];
    }
    if RoundLimitReached(WithOfferRound(n, o, now)) {
      AppendedTrans(log, mid, log', [OfferReceived, NegotiationRoundStarted], [SessionFailed]);
      assert log'[..|mid|] == mid;
      assert log'[|log|] == mid[|log|] && log'[|log| + 1] == mid[|log| + 1];
    } else {
      AppendedTrans(log, mid, log', [OfferReceived, NegotiationRoundStarted], []);
    }
  }

  /**
   * `_handle_offer` over the store's tables before and after: nothing
   * for an unknown session or empty offer data, the exception of
   * `Offer.from_dict` for a malformed offer, otherwise `OfferRecorded`.
   */
  ghost predicate OfferOutcome(sid: string, m: ParsedMessage, states: map<string, SessionView>, log: seq<Event>,
                               states': map<string, SessionView>, log': seq<Event>, now: Timestamp,
                               r: Result<Option<CoordinatorResult>>)
    requires sid in states ==> states[sid].NegotiationSession?
  {
    if sid !in states || !Truthy(m.offerData) then r == Success(None) && log' == log && states' == states
    else match OfferFromJson(m.offerData, now)
      case Failure(err) => r == Failure(err) && log' == log && states' == states
      case Success(o) => sid in states'
                         && OfferRecorded(sid, states[sid].n, o, ContextOf(m.contextId), log, log', states'[sid], now, r)
  }

  const AcceptReason := "Offer accepted"
  const TimeoutReason := "Timeout reached"
  const CoordinatorCancelReason := "Cancelled by coordinator"
  const CounterpartyCancelReason := "Cancelled by counterparty"

  /**
   * The events that touch only the base record's status and update time:
   * SESSION_STARTED activates, SESSION_COMPLETED and OFFER_ACCEPTED
   * complete, SESSION_CANCELLED cancels, SESSION_FAILED fails and
   * TIMEOUT_REACHED keeps the status.
   */
  predicate StatusEvent(t: EventType) {
    t == SessionStarted || t == SessionCompleted || t == SessionCancelled || t == SessionFailed
    || t == OfferAccepted || t == TimeoutReached
  }

  function StatusAfter(t: EventType, s: Status): Status {
    match t
    case SessionStarted => Active
    case SessionCompleted => Completed
    case OfferAccepted => Completed
    case SessionCancelled => Cancelled
    case SessionFailed => Failed
    case _ => s
  }

  /** The state after a status event. */
  function Stamped(n: NegotiationView, t: EventType, now: Timestamp): NegotiationView {
    n.(base := n.base.(status := StatusAfter(t, n.base.status), updatedAt := now))
  }

  lemma StatusEventFold(n: NegotiationView, e: Event)
    requires StatusEvent(e.eventType)
    ensures Fold(NegotiationSession(n), e, e.timestamp) == NegotiationSession(Stamped(n, e.eventType, e.timestamp))
  {
  }

  /** What a step returns when it ends with `_complete_session`: its result, or the exception it raised. */
  function Lifted(c: Result<CoordinatorResult>): Result<Option<CoordinatorResult>> {
    match c
    case Success(v) => Success(Some(v))
    case Failure(e) => Failure(e)
  }

  /**
   * `accept`: OFFER_ACCEPTED with the message's `action_data`, then
   * SESSION_COMPLETED; the result is completed and agreed at the price
   * the payload names, or carries the exception finding it raised.
   */
  ghost predicate AcceptOutcome(sid: string, m: ParsedMessage, states: map<string, SessionView>, log: seq<Event>,
                                states': map<string, SessionView>, log': seq<Event>, now: Timestamp,
                                r: Result<Option<CoordinatorResult>>)
    requires sid in states ==> states[sid].NegotiationSession?
  {
    && Appended(log, log', [OfferAccepted] + (if sid in states then [SessionCompleted] else []))
    && log'[|log|].data == map["action_data" := m.actionData] && log'[|log|].contextId == ContextOf(m.contextId)
    && (sid !in states ==> r == Success(Some(NotFound(sid, Negotiation, "Session not found"))) && states' == states)
    && (sid in states ==>
          var n := states[sid].n;
          sid in states' && states'[sid] == NegotiationSession(Concluded(n, Completed, now))
          && r == match NamedPrice(sid, m.actionData, n)
                  case Success(p) => Success(Some(Summary(sid, n, Completed, AcceptReason, Some(p), now)))
                  case Failure(e) => Failure(e))
  }

  /** `cancel`: SESSION_CANCELLED with the counterparty's reason, and a cancelled result with no price. */
  ghost predicate CancelOutcome(sid: string, m: ParsedMessage, states: map<string, SessionView>, log: seq<Event>,
                                states': map<string, SessionView>, log': seq<Event>, now: Timestamp,
                                r: Result<Option<CoordinatorResult>>)
    requires sid in states ==> states[sid].NegotiationSession?
  {
    && Appended(log, log', [SessionCancelled])
    && log'[|log|].data == map["reason" := JStr(CounterpartyCancelReason)]
    && log'[|log|].contextId == ContextOf(m.contextId)
    && (sid !in states ==> r == Success(Some(NotFound(sid, Negotiation, "Session not found"))) && states' == states)
    && (sid in states ==>
          var n := states[sid].n;
          sid in states' && states'[sid] == NegotiationSession(Stamped(n, SessionCancelled, now))
          && r == Success(Some(Summary(sid, n, Cancelled, CounterpartyCancelReason, None, now))))
  }

  /** `_handle_action`: accept, cancel, and nothing for any other action. */
  ghost predicate ActionOutcome(sid: string, m: ParsedMessage, states: map<string, SessionView>, log: seq<Event>,
                                states': map<string, SessionView>, log': seq<Event>, now: Timestamp,
                                r: Result<Option<CoordinatorResult>>)
    requires sid in states ==> states[sid].NegotiationSession?
  {
    if m.action == JStr("accept") then AcceptOutcome(sid, m, states, log, states', log', now, r)
    else if m.action == JStr("cancel") then CancelOutcome(sid, m, states, log, states', log', now, r)
    else r == Success(None) && log' == log && states' == states
  }

  /** OFFER_ACCEPTED and then `_complete_session` establish `AcceptOutcome`. */
  lemma AcceptSteps(sid: string, m: ParsedMessage, states: map<string, SessionView>, log: seq<Event>, e: Event,
                    states': map<string, SessionView>, log': seq<Event>, now: Timestamp, c: Result<CoordinatorResult>)
    requires sid in states ==> states[sid].NegotiationSession?
    requires e.eventType == OfferAccepted && e.data == map["action_data" := m.actionData]
    requires e.contextId == ContextOf(m.contextId)
    requires sid !in states ==>
      log' == log + [e] && states' == states && c == Success(NotFound(sid, Negotiation, "Session not found"))
    requires sid in states ==>
      sid in states' && Concludes(sid, Stamped(states[sid].n, OfferAccepted, now), log + [e], log', states'[sid],
                                  Completed, AcceptReason, now, c)
    ensures AcceptOutcome(sid, m, states, log, states', log', now, Lifted(c))
  {
    AppendedOne(log, e);
    if sid in states {
      var n := states[sid].n;
      var n' := Stamped(n, OfferAccepted, now);
      FinalPriceOfNewest(sid, log, e, n');
      assert NamedPrice(sid, m.actionData, n') == NamedPrice(sid, m.actionData, n);
      AppendedTrans(log, log + [e], log', [OfferAccepted], [SessionCompleted]);
      assert log'[|log|] == (log + [e])[|log|] by { assert log'[..|log| + 1] == log + [e]; }
    }
  }

  /** SESSION_CANCELLED and then `_complete_session` establish `CancelOutcome`. */
  lemma CancelSteps(sid: string, m: ParsedMessage, states: map<string, SessionView>, log: seq<Event>, e: Event,
                    states': map<string, SessionView>, log': seq<Event>, now: Timestamp, c: Result<CoordinatorResult>)
    requires sid in states ==> states[sid].NegotiationSession?
    requires e.eventType == SessionCancelled && e.data == map["reason" := JStr(CounterpartyCancelReason)]
    requires e.contextId == ContextOf(m.contextId)
    requires sid !in states ==>
      log' == log + [e] && states' == states && c == Success(NotFound(sid, Negotiation, "Session not found"))
    requires sid in states ==>
      sid in states' && Concludes(sid, Stamped(states[sid].n, SessionCancelled, now), log + [e], log', states'[sid],
                                  Cancelled, CounterpartyCancelReason, now, c)
    ensures CancelOutcome(sid, m, states, log, states', log', now, Lifted(c))
  {
    AppendedOne(log, e);
    if sid in states {
      AppendedTrans(log, log + [e], log', [SessionCancelled], []);
      assert log'[..|log| + 1] == log + [e];
    }
  }

  /** `_handle_discovery`: DISCOVERY_RECEIVED with the discovery data (`{}` when falsy) under the message's context. */
  ghost predicate DiscoveryOutcome(sid: string, m: ParsedMessage, states: map<string, SessionView>, log: seq<Event>,
                                   states': map<string, SessionView>, log': seq<Event>, now: Timestamp)
    requires sid in states ==> states[sid].NegotiationSession?
  {
    && Appended(log, log', [DiscoveryReceived])
    && log'[|log|].data == map["discovery_data" := ObjectOr(m.discoveryData)]
    && log'[|log|].contextId == ContextOf(m.contextId)
    && (sid !in states ==> states' == states)
    && (sid in states ==>
          sid in states'
          && states'[sid] == NegotiationSession(WithDiscovery(states[sid].n, ObjectOr(m.discoveryData), ContextOf(m.contextId), now)))
  }

  /**
   * `handle_message`: an unknown or inactive session is left alone;
   * otherwise the message is routed by its type.
   */
  ghost predicate MessageOutcome(sid: string, m: ParsedMessage, states: map<string, SessionView>, log: seq<Event>,
                                 states': map<string, SessionView>, log': seq<Event>, now: Timestamp,
                                 r: Result<Option<CoordinatorResult>>)
    requires sid in states ==> states[sid].NegotiationSession?
  {
    if sid !in states || states[sid].n.base.status != Active then r == Success(None) && log' == log && states' == states
    else match m.messageType
      case DiscoveryMsg => r == Success(None) && DiscoveryOutcome(sid, m, states, log, states', log', now)
      case OfferMsg => OfferOutcome(sid, m, states, log, states', log', now, r)
      case ActionMsg => ActionOutcome(sid, m, states, log, states', log', now, r)
  }

  /** Handling a message only appends to the session's log and keeps the session a negotiation. */
  lemma OutcomeExtends(sid: string, m: ParsedMessage, states: map<string, SessionView>, log: seq<Event>,
                       states': map<string, SessionView>, log': seq<Event>, now: Timestamp,
                       r: Result<Option<CoordinatorResult>>)
    requires sid in states ==> states[sid].NegotiationSession?
    requires MessageOutcome(sid, m, states, log, states', log', now, r)
    ensures Extends(log, log')
    ensures sid in states ==> sid in states' && states'[sid].NegotiationSession?
    ensures sid !in states ==> states' == states
    ensures r.Success? && r.value.Some? ==> r.value.value.sessionId == sid && r.value.value.sessionType == Negotiation
  {
  }

  /**
   * The messages `_process_response` handled, as a trail through the
   * store's tables: the i-th message took the tables from the i-th to the
   * next entry with the i-th result, and every result but the last was
   * None.
   */
  ghost predicate Handled(sid: string, msgs: seq<ParsedMessage>, tables: seq<map<string, SessionView>>,
                          logs: seq<seq<Event>>, results: seq<Result<Option<CoordinatorResult>>>, now: Timestamp)
  {
    && |tables| == |logs| == |results| + 1 && |results| <= |msgs|
    && (forall i | 0 <= i < |tables| :: sid in tables[i] ==> tables[i][sid].NegotiationSession?)
    && (forall i | 0 <= i < |results| ::
          MessageOutcome(sid, msgs[i], tables[i], logs[i], tables[i + 1], logs[i + 1], now, results[i]))
    && (forall i | 0 <= i < |results| - 1 :: results[i] == Success(None))
  }

  /** One more message handled extends the trail. */
  lemma HandledStep(sid: string, msgs: seq<ParsedMessage>, tables: seq<map<string, SessionView>>,
                    logs: seq<seq<Event>>, results: seq<Result<Option<CoordinatorResult>>>, now: Timestamp,
                    states': map<string, SessionView>, log': seq<Event>, r: Result<Option<CoordinatorResult>>)
    requires Handled(sid, msgs, tables, logs, results, now) && |results| < |msgs|
    requires forall j | 0 <= j < |results| :: results[j] == Success(None)
    requires MessageOutcome(sid, msgs[|results|], tables[|results|], logs[|results|], states', log', now, r)
    ensures Handled(sid, msgs, tables + [states'], logs + [log'], results + [r], now)
  {
    var k := |results|;
    OutcomeExtends(sid, msgs[k], tables[k], logs[k], states', log', now, r);
    var tables', logs', results' := tables + [states'], logs + [log'], results + [r];
    forall i | 0 <= i < |results'|
      ensures MessageOutcome(sid, msgs[i], tables'[i], logs'[i], tables'[i + 1], logs'[i + 1], now, results'[i])
    {
      if i < k {
        assert tables'[i] == tables[i] && tables'[i + 1] == tables[i + 1];
        assert logs'[i] == logs[i] && logs'[i + 1] == logs[i + 1] && results'[i] == results[i];
      }
    }
  }

  /** A result a message gives for a stored session reports the session as the message leaves it. */
  lemma OutcomeReports(sid: string, m: ParsedMessage, states: map<string, SessionView>, log: seq<Event>,
                       states': map<string, SessionView>, log': seq<Event>, now: Timestamp, c: CoordinatorResult)
    requires sid in states && states[sid].NegotiationSession?
    requires MessageOutcome(sid, m, states, log, states', log', now, Success(Some(c)))
    ensures Reports(sid, c, states')
  {
    var n := states[sid].n;
    if m.messageType == OfferMsg {
      var o := OfferFromJson(m.offerData, now).value;
      var n1 := WithOfferRound(n, o, now);
      assert RoundLimitReached(n1);
      assert states'[sid] == NegotiationSession(Concluded(n1, Failed, now));
    } else if m.action == JStr("accept") {
      assert states'[sid] == NegotiationSession(Concluded(n, Completed, now));
    }
  }

  /** A stored session stays stored along the trail of handled messages. */
  lemma {:induction false} HandledKeeps(sid: string, msgs: seq<ParsedMessage>, tables: seq<map<string, SessionView>>,
                                        logs: seq<seq<Event>>, results: seq<Result<Option<CoordinatorResult>>>,
                                        now: Timestamp, k: nat)
    requires Handled(sid, msgs, tables, logs, results, now) && sid in tables[0] && k < |tables|
    ensures sid in tables[k]
  {
    if k > 0 {
      HandledKeeps(sid, msgs, tables, logs, results, now, k - 1);
      OutcomeExtends(sid, msgs[k - 1], tables[k - 1], logs[k - 1], tables[k], logs[k], now, results[k - 1]);
    }
  }

  /** The result that ends a reply reports the session as the reply leaves it. */
  lemma HandledReports(sid: string, msgs: seq<ParsedMessage>, tables: seq<map<string, SessionView>>,
                       logs: seq<seq<Event>>, results: seq<Result<Option<CoordinatorResult>>>, now: Timestamp,
                       c: CoordinatorResult)
    requires Handled(sid, msgs, tables, logs, results, now) && sid in tables[0]
    requires results != [] && results[|results| - 1] == Success(Some(c))
    ensures Reports(sid, c, tables[|tables| - 1])
  {
    var k := |results| - 1;
    HandledKeeps(sid, msgs, tables, logs, results, now, k);
    OutcomeReports(sid, msgs[k], tables[k], logs[k], tables[k + 1], logs[k + 1], now, c);
  }

  /** A session still inactive is left alone by every message of a reply, and no message gives a result. */
  lemma {:induction false} InactiveUntouched(sid: string, msgs: seq<ParsedMessage>, tables: seq<map<string, SessionView>>,
                                             logs: seq<seq<Event>>, results: seq<Result<Option<CoordinatorResult>>>,
                                             now: Timestamp, k: nat)
    requires Handled(sid, msgs, tables, logs, results, now)
    requires sid !in tables[0] || tables[0][sid].n.base.status != Active
    requires k < |tables|
    ensures tables[k] == tables[0] && logs[k] == logs[0]
    ensures forall i | 0 <= i < k :: results[i] == Success(None)
  {
    if k > 0 {
      InactiveUntouched(sid, msgs, tables, logs, results, now, k - 1);
      assert MessageOutcome(sid, msgs[k - 1], tables[k - 1], logs[k - 1], tables[k], logs[k], now, results[k - 1]);
    }
  }

  // ---------------------------------------------------------------------
  // The negotiation loop

  const LoopReason := "Negotiation loop completed"

  /** What `get_session_status` reports on a negotiation. */
  datatype NegotiationStatus = NegotiationStatus(sessionId: string, status: Status, currentRound: int,
                                                 maxRounds: Option<int>, lastOffer: Option<Object>)

  /** How `start` ended: before the loop, with a result a step produced, with an exception, or after the loop. */
  datatype Ending = NotStarted | Answered | Errored(error: string) | LoopEnded

  /** What one pass of the loop in `start` ends with. */
  datatype StepOutcome = Next | Break | Finish(result: CoordinatorResult) | Raised(error: string)

  /** `_process_response`'s answer as the loop reads it: a result returns, an exception fails the session, None goes on. */
  function StepOf(x: Result<Option<CoordinatorResult>>): (o: StepOutcome)
    ensures o != Break
  {
    match x
    case Failure(e) => Raised(e)
    case Success(None) => Next
    case Success(Some(c)) => Finish(c)
  }

  /**
   * `range(config.get("max_rounds", 100))`: 100 when absent, a negative
   * count runs no round, a boolean counts as 0 or 1, and anything else
   * raises TypeError.
   */
  function LoopBound(config: Object): (r: Result<nat>)
    ensures "max_rounds" !in config ==> r == Success(100)
    ensures r.Success? <==> "max_rounds" !in config || config["max_rounds"].JNum? || config["max_rounds"].JBool?
    ensures "max_rounds" in config && config["max_rounds"].JNum? ==>
      r == Success(if config["max_rounds"].n < 0 then 0 else config["max_rounds"].n)
  {
    match GetOr(config, "max_rounds", JNum(100))
    case JNum(n) => Success(if n < 0 then 0 else n)
    case JBool(b) => Success(if b then 1 else 0)
    case v => Result<nat>.Failure("TypeError: '" + TypeName(v) + "' object cannot be interpreted as an integer")
  }

  /** OFFER_SENT carrying a readable offer stores it as the last one sent. */
  function WithOfferSent(n: NegotiationView, o: Offer, now: Timestamp): NegotiationView {
    n.(base := n.base.(updatedAt := now), offersSent := n.offersSent.Put(o.offerId, o), lastOfferSent := Some(o))
  }

  lemma OfferSentFold(n: NegotiationView, e: Event, o: Offer)
    requires e.eventType == OfferSent && ReadOffer(e, e.timestamp) == Read(o)
    ensures Fold(NegotiationSession(n), e, e.timestamp) == NegotiationSession(WithOfferSent(n, o, e.timestamp))
  {
  }

  /** The `action_data` of the OFFER_ACCEPTED event the loop logs for an agent's acceptance. */
  function AcceptData(offerId: string, message: Option<string>): Object {
    map["action_data" := JObj(map["offer_id" := JStr(offerId), "message" := OptStr(message)])]
  }

  /**
   * The price an agent's acceptance of `offerId` completes at: the offer
   * of that id among those sent, else among those received; an empty id
   * or an unknown one raises ValueError.
   */
  lemma AcceptedIdPrice(sid: string, offerId: string, message: Option<string>, n: NegotiationView)
    ensures var r := NamedPrice(sid, AcceptData(offerId, message)["action_data"], n);
      && (r.Success? <==> offerId != "" && (offerId in n.offersSent.entries || offerId in n.offersReceived.entries))
      && (r.Success? ==> r.value == if offerId in n.offersSent.entries then n.offersSent.entries[offerId].price
                                   else n.offersReceived.entries[offerId].price)
  {
    assert Get(AcceptData(offerId, message)["action_data"].fields, "offer_id") == JStr(offerId);
  }

  /**
   * What an agent's acceptance does to a session with state `n` and log
   * `log`: OFFER_ACCEPTED naming the offer; then, once the counterparty
   * was told, `_complete_session`: completed at the price the acceptance
   * names, or the exception finding it raises. The reply cannot produce
   * a result of its own: OFFER_ACCEPTED has already made the session
   * completed, so every message of it is ignored.
   */
  ghost predicate AcceptTurn(sid: string, offerId: string, message: Option<string>, reply: Result<seq<ParsedMessage>>,
                             n: NegotiationView, log: seq<Event>, after: SessionView, log': seq<Event>, now: Timestamp,
                             o: StepOutcome)
  {
    && |log'| > |log| && log'[..|log|] == log
    && log'[|log|].eventType == OfferAccepted && log'[|log|].data == AcceptData(offerId, message)
    && (reply.Failure? ==>
          o == Raised(reply.error) && log' == log + [log'[|log|]]
          && after == NegotiationSession(Stamped(n, OfferAccepted, now)))
    && (reply.Success? ==>
          && Appended(log, log', [OfferAccepted, SessionCompleted])
          && after == NegotiationSession(Concluded(Stamped(n, OfferAccepted, now), Completed, now))
          && o == match NamedPrice(sid, AcceptData(offerId, message)["action_data"], n)
                  case Success(p) => Finish(Summary(sid, n, Completed, AcceptReason, Some(p), now))
                  case Failure(e) => Raised(e))
  }

  lemma AcceptTurnExtends(sid: string, offerId: string, message: Option<string>, reply: Result<seq<ParsedMessage>>,
                          n: NegotiationView, log: seq<Event>, after: SessionView, log': seq<Event>, now: Timestamp,
                          o: StepOutcome, states: map<string, SessionView>)
    requires AcceptTurn(sid, offerId, message, reply, n, log, after, log', now, o)
    requires sid in states && states[sid] == after
    ensures Extends(log, log') && o != Break && o != Next
    ensures o.Finish? ==> o.result.sessionId == sid && o.result.sessionType == Negotiation
    ensures o.Finish? ==> Reports(sid, o.result, states)
  {
  }

  /** OFFER_ACCEPTED, an ignored reply and `_complete_session` establish `AcceptTurn`. */
  lemma AcceptTurnSteps(sid: string, offerId: string, message: Option<string>, reply: Result<seq<ParsedMessage>>,
                        n: NegotiationView, log: seq<Event>, e: Event, after: SessionView, log': seq<Event>,
                        now: Timestamp, c: Result<CoordinatorResult>, o: StepOutcome)
    requires e.eventType == OfferAccepted && e.data == AcceptData(offerId, message)
    requires reply.Failure? ==>
      o == Raised(reply.error) && log' == log + [e] && after == NegotiationSession(Stamped(n, OfferAccepted, now))
    requires reply.Success? ==>
      Concludes(sid, Stamped(n, OfferAccepted, now), log + [e], log', after, Completed, AcceptReason, now, c)
      && o == (if c.Success? then Finish(c.value) else Raised(c.error))
    ensures AcceptTurn(sid, offerId, message, reply, n, log, after, log', now, o)
  {
    AppendedOne(log, e);
    if reply.Success? {
      var n' := Stamped(n, OfferAccepted, now);
      FinalPriceOfNewest(sid, log, e, n');
      assert NamedPrice(sid, AcceptData(offerId, message)["action_data"], n')
          == NamedPrice(sid, AcceptData(offerId, message)["action_data"], n);
      AppendedTrans(log, log + [e], log', [OfferAccepted], [SessionCompleted]);
      assert log'[..|log| + 1] == log + [e];
      assert log'[..|log|] == (log + [e])[..|log|];
    }
  }

  class NegotiationCoordinator {
    const sm: StateManager
    const agent: Option<Agent>
    /** The session messenger; None when no connection manager was given. */
    const messenger: Option<Messenger>
    /** Agent consultations made so far; the count numbers the next one. */
    var consulted: nat
    /** Messages sent so far; the count numbers the next send. */
    var sent: nat
    /** Offers created so far; the next offer id is `offer-` + HexId(offersMade). */
    var offersMade: nat

    constructor (agent: Option<Agent>, messenger: Option<Messenger>, sm: StateManager)
      ensures this.agent == agent && this.messenger == messenger && this.sm == sm
      ensures consulted == 0 && sent == 0 && offersMade == 0
    {
      this.agent := agent;
      this.messenger := messenger;
      this.sm := sm;
      consulted := 0;
      sent := 0;
      offersMade := 0;
    }

    /** The store is consistent, and the session, if stored, is a negotiation. */
    ghost predicate Ready(sid: string)
      reads this, sm
    {
      sm.Valid() && (sid in sm.states ==> sm.states[sid].NegotiationSession?)
    }

    /** Nothing but the session `sid`'s log and state changed. */
    twostate predicate OnlySession(sid: string)
      reads this, sm
    {
      && sm.events - {sid} == old(sm.events) - {sid}
      && sm.states - {sid} == old(sm.states) - {sid}
      && sm.states.Keys == old(sm.states.Keys)
      && sm.contextToSession == old(sm.contextToSession)
      && sm.initial == old(sm.initial)
      && sm.clock == old(sm.clock)
    }

    /**
     * `emit_event` for an event that carries no offer and no updates:
     * logged at the end of the session's log and folded without raising.
     */
    method Record(sid: string, t: EventType, data: Object, ctx: Option<string>) returns (e: Event)
      requires Ready(sid) && t != StateUpdated && t != OfferSent && t != OfferReceived
      modifies sm
      ensures Ready(sid) && OnlySession(sid)
      ensures sm.Log(sid) == old(sm.Log(sid)) + [e]
      ensures e.eventType == t && e.data == data && e.contextId == ctx && e.timestamp == old(sm.clock)
      ensures sid in old(sm.states) ==> sm.states[sid] == Fold(old(sm.states[sid]), e, e.timestamp)
      ensures sid !in old(sm.states) ==> sm.states == old(sm.states)
    {
      var err;
      e, err := sm.EmitEvent(sid, t, data, ctx, None);
    }

    /** `emit_event` for an offer event carrying `offer.to_dict()`: the fold reads the offer back and does not raise. */
    method RecordOffer(sid: string, t: EventType, o: Offer, ctx: Option<string>) returns (e: Event)
      requires Ready(sid) && (t == OfferSent || t == OfferReceived)
      modifies sm
      ensures Ready(sid) && OnlySession(sid)
      ensures sm.Log(sid) == old(sm.Log(sid)) + [e]
      ensures e.eventType == t && e.data == map["offer" := JObj(OfferToDict(o))] && e.contextId == ctx
      ensures e.timestamp == old(sm.clock) && ReadOffer(e, e.timestamp) == Read(o)
      ensures sid in old(sm.states) ==> sm.states[sid] == Fold(old(sm.states[sid]), e, e.timestamp)
      ensures sid !in old(sm.states) ==> sm.states == old(sm.states)
    {
      var err;
      e, err := sm.EmitEvent(sid, t, map["offer" := JObj(OfferToDict(o))], ctx, None);
      CarriedOfferReads(e, o, e.timestamp);
    }

    /** `emit_event` for a status event: the status and update time change and nothing else. */
    method RecordStatus(sid: string, t: EventType, data: Object, ctx: Option<string>) returns (e: Event)
      requires Ready(sid) && StatusEvent(t)
      modifies sm
      ensures Ready(sid) && OnlySession(sid)
      ensures sm.Log(sid) == old(sm.Log(sid)) + [e]
      ensures e.eventType == t && e.data == data && e.contextId == ctx && e.timestamp == old(sm.clock)
      ensures sid in old(sm.states) ==>
        sid in sm.states && sm.states[sid] == NegotiationSession(Stamped(old(sm.states[sid]).n, t, old(sm.clock)))
      ensures sid !in old(sm.states) ==> sm.states == old(sm.states)
    {
      e := Record(sid, t, data, ctx);
      if sid in old(sm.states) {
        StatusEventFold(old(sm.states[sid]).n, e);
      }
    }

    /** `_complete_session`. */
    method CompleteSession(sid: string, status: Status, reason: string) returns (r: Result<CoordinatorResult>)
      requires Ready(sid)
      modifies sm
      ensures Ready(sid) && OnlySession(sid)
      ensures sid !in old(sm.states) ==>
        r == Success(NotFound(sid, Negotiation, "Session not found"))
        && sm.events == old(sm.events) && sm.states == old(sm.states)
      ensures sid in old(sm.states) ==>
        Concludes(sid, old(sm.states[sid]).n, old(sm.Log(sid)), sm.Log(sid), sm.states[sid], status, reason,
                  old(sm.clock), r)
    {
      if sid !in sm.states {
        return Success(NotFound(sid, Negotiation, "Session not found"));
      }
      var n := sm.states[sid].n;
      ghost var before := sm.Log(sid);
      if status == Completed || status == Failed {
        var e := Record(sid, if status == Completed then SessionCompleted else SessionFailed,
                        map["reason" := JStr(reason)], None);
        AppendedOne(before, e);
        FinalPriceSkips(sid, before, e, n);
        ConcludingFold(n, e, status);
      } else {
        AppendedNothing(before);
      }
      var price: Option<int> := None;
      if status == Completed {
        var log := sm.GetEvents(sid, None, None, None);
        UnfilteredIsLog(sm.Log(sid));
        var accepted := sm.states[sid].n;
        var p := AcceptedPrice(sid, log, accepted);
        SameOffersSamePrice(sid, log, n, accepted);
        if p.Failure? {
          return Failure(p.error);
        }
        price := Some(p.value);
      }
      r := Success(Summary(sid, n, status, reason, price, sm.clock));
    }

    /** `_handle_discovery`. */
    method HandleDiscovery(sid: string, m: ParsedMessage)
      requires Ready(sid)
      modifies sm
      ensures Ready(sid) && OnlySession(sid)
      ensures DiscoveryOutcome(sid, m, old(sm.states), old(sm.Log(sid)), sm.states, sm.Log(sid), old(sm.clock))
    {
      ghost var before := sm.Log(sid);
      var e := Record(sid, DiscoveryReceived, map["discovery_data" := ObjectOr(m.discoveryData)], ContextOf(m.contextId));
      AppendedOne(before, e);
      if sid in old(sm.states) {
        DiscoveryFold(old(sm.states[sid]).n, e, ObjectOr(m.discoveryData));
      }
    }

    /** OFFER_RECEIVED: the offer is stored and is the last one received. */
    method RecordOfferReceived(sid: string, o: Offer, ctx: Option<string>) returns (e: Event)
      requires Ready(sid) && sid in sm.states
      modifies sm
      ensures Ready(sid) && OnlySession(sid)
      ensures sm.Log(sid) == old(sm.Log(sid)) + [e]
      ensures e.eventType == OfferReceived && e.data == map["offer" := JObj(OfferToDict(o))] && e.contextId == ctx
      ensures sid in sm.states && sm.states[sid] == NegotiationSession(WithOfferReceived(old(sm.states[sid]).n, o, old(sm.clock)))
    {
      var n := sm.states[sid].n;
      e := RecordOffer(sid, OfferReceived, o, ctx);
      OfferReceivedFold(n, e, o);
    }

    /** NEGOTIATION_ROUND_STARTED numbered one past the current round: the round advances. */
    method RecordRoundStarted(sid: string) returns (e: Event)
      requires Ready(sid) && sid in sm.states
      modifies sm
      ensures Ready(sid) && OnlySession(sid)
      ensures sm.Log(sid) == old(sm.Log(sid)) + [e]
      ensures e.eventType == NegotiationRoundStarted
      ensures e.data == map["round_number" := JNum(old(sm.states[sid]).n.currentRound + 1)]
      ensures sid in sm.states
      ensures var n := old(sm.states[sid]).n;
        sm.states[sid] == NegotiationSession(n.(base := n.base.(updatedAt := old(sm.clock)), currentRound := n.currentRound + 1))
    {
      var n := sm.states[sid].n;
      e := Record(sid, NegotiationRoundStarted, map["round_number" := JNum(n.currentRound + 1)], None);
      RoundStartedFold(n, e, n.currentRound + 1);
    }

    /**
     * The two events `_handle_offer` logs for a readable offer: the offer
     * is stored as the last one received and the round advances by one.
     */
    method RecordOfferRound(sid: string, o: Offer, ctx: Option<string>) returns (e1: Event, e2: Event)
      requires Ready(sid) && sid in sm.states
      modifies sm
      ensures Ready(sid) && OnlySession(sid)
      ensures sm.Log(sid) == old(sm.Log(sid)) + [e1, e2]
      ensures e1.eventType == OfferReceived && e1.data == map["offer" := JObj(OfferToDict(o))] && e1.contextId == ctx
      ensures e2.eventType == NegotiationRoundStarted
      ensures e2.data == map["round_number" := JNum(old(sm.states[sid]).n.currentRound + 1)]
      ensures sid in sm.states && sm.states[sid] == NegotiationSession(WithOfferRound(old(sm.states[sid]).n, o, old(sm.clock)))
    {
      ghost var n, log := sm.states[sid].n, sm.Log(sid);
      e1 := RecordOfferReceived(sid, o, ctx);
      ghost var n1 := sm.states[sid].n;
      assert n1 == WithOfferReceived(n, o, old(sm.clock)) && n1.currentRound == n.currentRound;
      e2 := RecordRoundStarted(sid);
      assert sm.Log(sid) == log + [e1] + [e2];
    }

    /** `_handle_offer`. */
    method HandleOffer(sid: string, m: ParsedMessage) returns (r: Result<Option<CoordinatorResult>>)
      requires Ready(sid)
      modifies sm
      ensures Ready(sid) && OnlySession(sid)
      ensures OfferOutcome(sid, m, old(sm.states), old(sm.Log(sid)), sm.states, sm.Log(sid), old(sm.clock), r)
    {
      if sid !in sm.states || !Truthy(m.offerData) {
        return Success(None);
      }
      var n := sm.states[sid].n;
      var read := OfferFromJson(m.offerData, sm.clock);
      if read.Failure? {
        return Failure(read.error);
      }
      var o := read.value;
      ghost var before := sm.Log(sid);
      var e1, e2 := RecordOfferRound(sid, o, ContextOf(m.contextId));
      var n1 := sm.states[sid].n;
      ghost var now, mid := sm.clock, sm.Log(sid);
      var c: Result<CoordinatorResult> := Success(NotFound(sid, Negotiation, ""));
      if RoundLimitReached(n1) {
        c := CompleteSession(sid, Failed, MaxRoundsReason);
        assert Concludes(sid, n1, mid, sm.Log(sid), sm.states[sid], Failed, MaxRoundsReason, now, c);
        r := Success(Some(c.value));
      } else {
        r := Success(None);
      }
      OfferRecordedSteps(sid, n, o, ContextOf(m.contextId), before, e1, e2, sm.Log(sid), sm.states[sid], now, c, r);
    }

    /** The `accept` branch of `_handle_action`. */
    method HandleAccept(sid: string, m: ParsedMessage) returns (r: Result<Option<CoordinatorResult>>)
      requires Ready(sid)
      modifies sm
      ensures Ready(sid) && OnlySession(sid)
      ensures AcceptOutcome(sid, m, old(sm.states), old(sm.Log(sid)), sm.states, sm.Log(sid), old(sm.clock), r)
    {
      ghost var states, log, now := sm.states, sm.Log(sid), sm.clock;
      var e := RecordStatus(sid, OfferAccepted, map["action_data" := m.actionData], ContextOf(m.contextId));
      var c := CompleteSession(sid, Completed, AcceptReason);
      AcceptSteps(sid, m, states, log, e, sm.states, sm.Log(sid), now, c);
      r := if c.Success? then Success(Some(c.value)) else Failure(c.error);
    }

    /** The `cancel` branch of `_handle_action`. */
    method HandleCancel(sid: string, m: ParsedMessage) returns (r: Result<Option<CoordinatorResult>>)
      requires Ready(sid)
      modifies sm
      ensures Ready(sid) && OnlySession(sid)
      ensures CancelOutcome(sid, m, old(sm.states), old(sm.Log(sid)), sm.states, sm.Log(sid), old(sm.clock), r)
    {
      ghost var states, log, now := sm.states, sm.Log(sid), sm.clock;
      var e := RecordStatus(sid, SessionCancelled, map["reason" := JStr(CounterpartyCancelReason)], ContextOf(m.contextId));
      var c := CompleteSession(sid, Cancelled, CounterpartyCancelReason);
      CancelSteps(sid, m, states, log, e, sm.states, sm.Log(sid), now, c);
      r := Success(Some(c.value));
    }

    /** `_handle_action`. */
    method HandleAction(sid: string, m: ParsedMessage) returns (r: Result<Option<CoordinatorResult>>)
      requires Ready(sid)
      modifies sm
      ensures Ready(sid) && OnlySession(sid)
      ensures ActionOutcome(sid, m, old(sm.states), old(sm.Log(sid)), sm.states, sm.Log(sid), old(sm.clock), r)
    {
      if m.action == JStr("accept") {
        r := HandleAccept(sid, m);
      } else if m.action == JStr("cancel") {
        r := HandleCancel(sid, m);
      } else {
        r := Success(None);
      }
    }

    /** `handle_message`. */
    method HandleMessage(sid: string, m: ParsedMessage) returns (r: Result<Option<CoordinatorResult>>)
      requires Ready(sid)
      modifies sm
      ensures Ready(sid) && OnlySession(sid)
      ensures MessageOutcome(sid, m, old(sm.states), old(sm.Log(sid)), sm.states, sm.Log(sid), old(sm.clock), r)
    {
      if sid !in sm.states || sm.states[sid].n.base.status != Active {
        return Success(None);
      }
      match m.messageType
      case DiscoveryMsg =>
        HandleDiscovery(sid, m);
        r := Success(None);
      case OfferMsg =>
        r := HandleOffer(sid, m);
      case ActionMsg =>
        r := HandleAction(sid, m);
    }

    /** One pass of `_process_response`'s loop: the next message handled, as one more step of the trail. */
    method HandleNext(sid: string, msgs: seq<ParsedMessage>, i: nat, ghost tables: seq<map<string, SessionView>>,
                      ghost logs: seq<seq<Event>>, ghost results: seq<Result<Option<CoordinatorResult>>>)
      returns (x: Result<Option<CoordinatorResult>>)
      requires Ready(sid) && Handled(sid, msgs, tables, logs, results, sm.clock) && i == |results| < |msgs|
      requires forall j | 0 <= j < |results| :: results[j] == Success(None)
      requires tables[|results|] == sm.states && logs[|results|] == sm.Log(sid)
      modifies sm
      ensures Ready(sid) && OnlySession(sid)
      ensures Handled(sid, msgs, tables + [sm.states], logs + [sm.Log(sid)], results + [x], sm.clock)
      ensures Extends(old(sm.Log(sid)), sm.Log(sid))
      ensures x.Success? && x.value.Some? ==> x.value.value.sessionId == sid && x.value.value.sessionType == Negotiation
    {
      ghost var log, now := sm.Log(sid), sm.clock;
      x := HandleMessage(sid, msgs[i]);
      OutcomeExtends(sid, msgs[|results|], tables[|results|], log, sm.states, sm.Log(sid), now, x);
      HandledStep(sid, msgs, tables, logs, results, now, sm.states, sm.Log(sid), x);
    }

    /**
     * `_process_response`: handles the reply's messages in order and
     * returns the first result, or the first exception; None when every
     * message was handled without one.
     */
    method ProcessResponse(sid: string, msgs: seq<ParsedMessage>)
      returns (r: Result<Option<CoordinatorResult>>, ghost tables: seq<map<string, SessionView>>,
               ghost logs: seq<seq<Event>>, ghost results: seq<Result<Option<CoordinatorResult>>>)
      requires Ready(sid)
      modifies sm
      ensures Ready(sid) && OnlySession(sid)
      ensures Handled(sid, msgs, tables, logs, results, old(sm.clock))
      ensures tables[0] == old(sm.states) && logs[0] == old(sm.Log(sid))
      ensures tables[|tables| - 1] == sm.states && logs[|logs| - 1] == sm.Log(sid)
      ensures r == if results == [] then Success(None) else results[|results| - 1]
      ensures |results| < |msgs| ==> r != Success(None)
      ensures Extends(old(sm.Log(sid)), sm.Log(sid))
      ensures r.Success? && r.value.Some? ==> r.value.value.sessionId == sid && r.value.value.sessionType == Negotiation
      ensures r.Success? && r.value.Some? && sid in old(sm.states) ==> Reports(sid, r.value.value, sm.states)
    {
      tables, logs, results := [sm.states], [sm.Log(sid)], [];
      r := Success(None);
      var i := 0;
      while i < |msgs|
        invariant 0 <= i <= |msgs| && |results| == i
        invariant Ready(sid) && OnlySession(sid)
        invariant Handled(sid, msgs, tables, logs, results, old(sm.clock))
        invariant tables[0] == old(sm.states) && logs[0] == old(sm.Log(sid))
        invariant tables[i] == sm.states && logs[i] == sm.Log(sid)
        invariant r == Success(None) && forall j | 0 <= j < i :: results[j] == Success(None)
        invariant Extends(old(sm.Log(sid)), sm.Log(sid))
      {
        var x := HandleNext(sid, msgs, i, tables, logs, results);
        tables, logs, results := tables + [sm.states], logs + [sm.Log(sid)], results + [x];
        if x.Failure? || x.value.Some? {
          if x.Success? && sid in old(sm.states) {
            HandledReports(sid, msgs, tables, logs, results, old(sm.clock), x.value.value);
          }
          return x, tables, logs, results;
        }
        i := i + 1;
      }
    }

    /**
     * `start_session`: ValueError for an unknown session; otherwise
     * SESSION_STARTED with no data, which makes the session active. The
     * result is the timeout to watch, when the configuration gives a truthy one.
     */
    method StartSession(sid: string, config: Object) returns (r: Result<Option<Json>>)
      requires Ready(sid)
      modifies sm
      ensures Ready(sid) && OnlySession(sid)
      ensures sid !in old(sm.states) ==>
        r == Failure("ValueError: Session " + sid + " not found in StateManager")
        && sm.events == old(sm.events) && sm.states == old(sm.states)
      ensures sid in old(sm.states) ==>
        && r == Success(if Truthy(Get(config, "timeout")) then Some(Get(config, "timeout")) else None)
        && Appended(old(sm.Log(sid)), sm.Log(sid), [SessionStarted])
        && sm.Log(sid)[|old(sm.Log(sid))|].data == map[]
        && sid in sm.states && sm.states[sid] == NegotiationSession(Stamped(old(sm.states[sid]).n, SessionStarted, old(sm.clock)))
        && sm.states[sid].n.base.status == Active
    {
      if sid !in sm.states {
        return Failure("ValueError: Session " + sid + " not found in StateManager");
      }
      ghost var before := sm.Log(sid);
      var e := RecordStatus(sid, SessionStarted, map[], None);
      AppendedOne(before, e);
      var timeout := Get(config, "timeout");
      r := Success(if Truthy(timeout) then Some(timeout) else None);
    }

    /**
     * `_monitor_timeout` once its sleep is over: a session still active
     * gets TIMEOUT_REACHED and then SESSION_FAILED, and so fails; any
     * other session is left alone.
     */
    method MonitorTimeout(sid: string, timeout: Json)
      requires Ready(sid)
      modifies sm
      ensures Ready(sid) && OnlySession(sid)
      ensures var active := sid in old(sm.states) && old(sm.states[sid]).n.base.status == Active;
        && (!active ==> sm.events == old(sm.events) && sm.states == old(sm.states))
        && (active ==>
              && Appended(old(sm.Log(sid)), sm.Log(sid), [TimeoutReached, SessionFailed])
              && sm.Log(sid)[|old(sm.Log(sid))|].data == map["timeout_seconds" := timeout]
              && sm.Log(sid)[|old(sm.Log(sid))| + 1].data == map["reason" := JStr(TimeoutReason)]
              && sid in sm.states
              && sm.states[sid] == NegotiationSession(Concluded(old(sm.states[sid]).n, Failed, old(sm.clock))))
    {
      if sid !in sm.states || sm.states[sid].n.base.status != Active {
        return;
      }
      ghost var before := sm.Log(sid);
      var e1 := RecordStatus(sid, TimeoutReached, map["timeout_seconds" := timeout], None);
      var e2 := RecordStatus(sid, SessionFailed, map["reason" := JStr(TimeoutReason)], None);
      AppendedOne(before, e1);
      AppendedOne(before + [e1], e2);
      AppendedTrans(before, before + [e1], sm.Log(sid), [TimeoutReached], [SessionFailed]);
    }

    /** `cancel_session`: False for an unknown session; otherwise SESSION_CANCELLED, and True. */
    method CancelSession(sid: string) returns (ok: bool)
      requires Ready(sid)
      modifies sm
      ensures Ready(sid) && OnlySession(sid)
      ensures ok == (sid in old(sm.states))
      ensures !ok ==> sm.events == old(sm.events) && sm.states == old(sm.states)
      ensures ok ==>
        && Appended(old(sm.Log(sid)), sm.Log(sid), [SessionCancelled])
        && sm.Log(sid)[|old(sm.Log(sid))|].data == map["reason" := JStr(CoordinatorCancelReason)]
        && sid in sm.states
        && sm.states[sid] == NegotiationSession(Stamped(old(sm.states[sid]).n, SessionCancelled, old(sm.clock)))
        && sm.states[sid].n.base.status == Cancelled
    {
      if sid !in sm.states {
        return false;
      }
      ghost var before := sm.Log(sid);
      var e := RecordStatus(sid, SessionCancelled, map["reason" := JStr(CoordinatorCancelReason)], None);
      AppendedOne(before, e);
      ok := true;
    }

    /**
     * `get_session_status`: None for an unknown session; otherwise the
     * status, the rounds and the last offer received, in dictionary form.
     */
    function GetSessionStatus(sid: string): (r: Option<NegotiationStatus>)
      reads sm
      requires sid in sm.states ==> sm.states[sid].NegotiationSession?
      ensures r.Some? <==> sid in sm.states
      ensures r.Some? ==>
        var n := sm.states[sid].n;
        && r.value.sessionId == sid && r.value.status == n.base.status
        && r.value.currentRound == n.currentRound && r.value.maxRounds == n.maxRounds
        && (r.value.lastOffer.Some? <==> n.lastOfferReceived.Some?)
      ensures r.Some? && r.value.lastOffer.Some? ==>
        OfferFromJson(JObj(r.value.lastOffer.value), sm.clock) == Success(sm.states[sid].n.lastOfferReceived.value)
    {
      if sid !in sm.states then None
      else
        var n := sm.states[sid].n;
        match n.lastOfferReceived
        case None => Some(NegotiationStatus(sid, n.base.status, n.currentRound, n.maxRounds, None))
        case Some(o) =>
          OfferRoundTrip(o, sm.clock);
          Some(NegotiationStatus(sid, n.base.status, n.currentRound, n.maxRounds, Some(OfferToDict(o))))
    }

    /** OFFER_SENT: the offer is stored and is the last one sent. */
    method RecordOfferSent(sid: string, o: Offer) returns (e: Event)
      requires Ready(sid) && sid in sm.states
      modifies sm
      ensures Ready(sid) && OnlySession(sid)
      ensures sm.Log(sid) == old(sm.Log(sid)) + [e]
      ensures e.eventType == OfferSent && e.data == map["offer" := JObj(OfferToDict(o))] && e.contextId.None?
      ensures sid in sm.states && sm.states[sid] == NegotiationSession(WithOfferSent(old(sm.states[sid]).n, o, old(sm.clock)))
    {
      var n := sm.states[sid].n;
      e := RecordOffer(sid, OfferSent, o, None);
      OfferSentFold(n, e, o);
    }

    /**
     * One send and the handling of its reply: the messenger's exception,
     * or `_process_response` over the reply's messages.
     */
    method Exchange(sid: string, out: Outbound)
      returns (o: StepOutcome, ghost tables: seq<map<string, SessionView>>, ghost logs: seq<seq<Event>>,
               ghost results: seq<Result<Option<CoordinatorResult>>>)
      requires Ready(sid) && messenger.Some?
      modifies this, sm
      ensures Ready(sid) && OnlySession(sid) && Extends(old(sm.Log(sid)), sm.Log(sid))
      ensures sent == old(sent) + 1 && consulted == old(consulted) && offersMade == old(offersMade)
      ensures var reply := messenger.value(old(sent), out);
        && (reply.Failure? ==> o == Raised(reply.error) && sm.events == old(sm.events) && sm.states == old(sm.states))
        && (reply.Success? ==>
              && Handled(sid, reply.value, tables, logs, results, old(sm.clock))
              && tables[0] == old(sm.states) && logs[0] == old(sm.Log(sid))
              && tables[|tables| - 1] == sm.states && logs[|logs| - 1] == sm.Log(sid)
              && o == StepOf(if results == [] then Success(None) else results[|results| - 1]))
      ensures o != Break
      ensures o.Finish? ==> o.result.sessionId == sid && o.result.sessionType == Negotiation
      ensures o.Finish? && sid in old(sm.states) ==> Reports(sid, o.result, sm.states)
    {
      var reply := messenger.value(sent, out);
      sent := sent + 1;
      if reply.Failure? {
        return Raised(reply.error), [], [], [];
      }
      var x;
      x, tables, logs, results := ProcessResponse(sid, reply.value);
      o := StepOf(x);
    }

    /** A send to a session that is no longer active changes nothing: the reply is ignored. */
    method ExchangeInactive(sid: string, out: Outbound) returns (o: StepOutcome)
      requires Ready(sid) && messenger.Some?
      requires sid !in sm.states || sm.states[sid].n.base.status != Active
      modifies this, sm
      ensures Ready(sid) && OnlySession(sid)
      ensures sent == old(sent) + 1 && consulted == old(consulted) && offersMade == old(offersMade)
      ensures sm.Log(sid) == old(sm.Log(sid)) && sm.states == old(sm.states)
      ensures var reply := messenger.value(old(sent), out);
        o == if reply.Failure? then Raised(reply.error) else Next
    {
      ghost var tables, logs, results;
      o, tables, logs, results := Exchange(sid, out);
      if messenger.value(old(sent), out).Success? {
        InactiveUntouched(sid, messenger.value(old(sent), out).value, tables, logs, results, old(sm.clock), |tables| - 1);
      }
    }

    /**
     * The SendOfferAction branch: a new offer on the session's item, with
     * the next offer id, logged as OFFER_SENT and then sent.
     */
    method OfferTurn(sid: string, price: Price, message: Option<string>, metadata: Option<Object>) returns (o: StepOutcome)
      requires Ready(sid) && sid in sm.states && messenger.Some?
      modifies this, sm
      ensures Ready(sid) && OnlySession(sid) && Extends(old(sm.Log(sid)), sm.Log(sid))
      ensures offersMade == old(offersMade) + 1 && sent == old(sent) + 1 && consulted == old(consulted)
      ensures var n := old(sm.states[sid]).n;
        var offer := OfferCreate(price, n.base.item.id, message, metadata, Text.HexId(old(offersMade)), old(sm.clock));
        && |sm.Log(sid)| > |old(sm.Log(sid))|
        && sm.Log(sid)[|old(sm.Log(sid))|].eventType == OfferSent
        && sm.Log(sid)[|old(sm.Log(sid))|].data == map["offer" := JObj(OfferToDict(offer))]
        && (messenger.value(old(sent), OfferOut(offer)).Failure? ==>
              o == Raised(messenger.value(old(sent), OfferOut(offer)).error)
              && |sm.Log(sid)| == |old(sm.Log(sid))| + 1
              && sm.states[sid] == NegotiationSession(WithOfferSent(n, offer, old(sm.clock))))
      ensures o != Break
      ensures o.Finish? ==> o.result.sessionId == sid && o.result.sessionType == Negotiation
      ensures o.Finish? ==> Reports(sid, o.result, sm.states)
    {
      var n := sm.states[sid].n;
      var offer := OfferCreate(price, n.base.item.id, message, metadata, Text.HexId(offersMade), sm.clock);
      offersMade := offersMade + 1;
      ghost var before := sm.Log(sid);
      var e := RecordOfferSent(sid, offer);
      ghost var tables, logs, results;
      o, tables, logs, results := Exchange(sid, OfferOut(offer));
      ExtendsPast(before, e, sm.Log(sid));
    }

    /** The AcceptOfferAction branch: OFFER_ACCEPTED, the acceptance sent, then `_complete_session`. */
    method AcceptTurnTaken(sid: string, offerId: string, message: Option<string>) returns (o: StepOutcome)
      requires Ready(sid) && sid in sm.states && messenger.Some?
      modifies this, sm
      ensures Ready(sid) && OnlySession(sid)
      ensures sent == old(sent) + 1 && consulted == old(consulted) && offersMade == old(offersMade)
      ensures sid in sm.states
      ensures AcceptTurn(sid, offerId, message, messenger.value(old(sent), AcceptOut(offerId, message)),
                         old(sm.states[sid]).n, old(sm.Log(sid)), sm.states[sid], sm.Log(sid), old(sm.clock), o)
    {
      ghost var n, log, now := sm.states[sid].n, sm.Log(sid), sm.clock;
      ghost var reply := messenger.value(sent, AcceptOut(offerId, message));
      var e := RecordStatus(sid, OfferAccepted, AcceptData(offerId, message), None);
      o := ExchangeInactive(sid, AcceptOut(offerId, message));
      var c: Result<CoordinatorResult> := Success(NotFound(sid, Negotiation, ""));
      if o.Next? {
        c := CompleteSession(sid, Completed, AcceptReason);
        o := if c.Success? then Finish(c.value) else Raised(c.error);
      }
      AcceptTurnSteps(sid, offerId, message, reply, n, log, e, sm.states[sid], sm.Log(sid), now, c, o);
    }

    /** The SendDiscoveryAction branch: the discovery data sent, with no event of its own. */
    method DiscoveryTurn(sid: string, text: string, data: Option<Object>) returns (o: StepOutcome)
      requires Ready(sid) && messenger.Some?
      modifies this, sm
      ensures Ready(sid) && OnlySession(sid) && Extends(old(sm.Log(sid)), sm.Log(sid))
      ensures sent == old(sent) + 1 && consulted == old(consulted) && offersMade == old(offersMade)
      ensures var reply := messenger.value(old(sent), DiscoveryOut(DiscoveryDataOf(text, data), None));
        reply.Failure? ==> o == Raised(reply.error) && sm.events == old(sm.events) && sm.states == old(sm.states)
      ensures o != Break
      ensures o.Finish? ==> o.result.sessionId == sid && o.result.sessionType == Negotiation
      ensures o.Finish? && sid in old(sm.states) ==> Reports(sid, o.result, sm.states)
    {
      ghost var tables, logs, results;
      o, tables, logs, results := Exchange(sid, DiscoveryOut(DiscoveryDataOf(text, data), None));
    }

    /**
     * One pass of the loop in `start` for an active session: the agent is
     * consulted once with the live state and its action carried out. An
     * exception of the agent is reported, an unknown action breaks the
     * loop, and neither changes the store.
     */
    method TakeTurn(sid: string) returns (o: StepOutcome)
      requires Ready(sid) && sid in sm.states && agent.Some? && messenger.Some?
      modifies this, sm
      ensures Ready(sid) && OnlySession(sid) && Extends(old(sm.Log(sid)), sm.Log(sid))
      ensures consulted == old(consulted) + 1
      ensures o.Finish? ==> o.result.sessionId == sid && o.result.sessionType == Negotiation
      ensures o.Finish? ==> Reports(sid, o.result, sm.states)
      ensures var reply := agent.value(old(consulted), old(sm.states[sid]));
        && (reply.AgentRaised? ==> o == Raised(reply.error) && sm.events == old(sm.events) && sm.states == old(sm.states))
        && (reply.Decided? && reply.action.UnknownAction? ==>
              o == Break && sm.events == old(sm.events) && sm.states == old(sm.states))
        && (reply.Decided? && !reply.action.UnknownAction? ==> o != Break && sent == old(sent) + 1)
        && (reply.Decided? && reply.action.SendOfferAction? ==>
              var a := reply.action;
              var offer := OfferCreate(a.price, old(sm.states[sid]).n.base.item.id, a.message, a.metadata,
                                       Text.HexId(old(offersMade)), old(sm.clock));
              offersMade == old(offersMade) + 1 && |sm.Log(sid)| > |old(sm.Log(sid))|
              && sm.Log(sid)[|old(sm.Log(sid))|].eventType == OfferSent
              && sm.Log(sid)[|old(sm.Log(sid))|].data == map["offer" := JObj(OfferToDict(offer))])
        && (reply.Decided? && reply.action.AcceptOfferAction? ==>
              var a := reply.action;
              sid in sm.states
              && AcceptTurn(sid, a.offerId, a.message, messenger.value(old(sent), AcceptOut(a.offerId, a.message)),
                            old(sm.states[sid]).n, old(sm.Log(sid)), sm.states[sid], sm.Log(sid), old(sm.clock), o))
    {
      var reply := agent.value(consulted, sm.states[sid]);
      consulted := consulted + 1;
      match reply
      case AgentRaised(err) =>
        o := Raised(err);
      case Decided(action) =>
        match action
        case SendOfferAction(price, message, metadata) =>
          o := OfferTurn(sid, price, message, metadata);
        case AcceptOfferAction(offerId, message) =>
          o := AcceptTurnTaken(sid, offerId, message);
          AcceptTurnExtends(sid, offerId, message, messenger.value(old(sent), AcceptOut(offerId, message)),
                            old(sm.states[sid]).n, old(sm.Log(sid)), sm.states[sid], sm.Log(sid), old(sm.clock), o,
                            sm.states);
        case SendDiscoveryAction(text, data) =>
          o := DiscoveryTurn(sid, text, data);
        case UnknownAction =>
          o := Break;
    }

    /**
     * One pass of the loop, seen from the loop: what `TakeTurn` promises
     * about the session as a whole and about how the pass ends.
     */
    method Pass(sid: string) returns (o: StepOutcome)
      requires Ready(sid) && sid in sm.states && agent.Some? && messenger.Some?
      modifies this, sm
      ensures Ready(sid) && sid in sm.states && OnlySession(sid) && Extends(old(sm.Log(sid)), sm.Log(sid))
      ensures consulted == old(consulted) + 1
      ensures o.Finish? ==> Reports(sid, o.result, sm.states)
      ensures var reply := agent.value(old(consulted), old(sm.states[sid]));
        && (reply.AgentRaised? ==> o == Raised(reply.error) && sm.events == old(sm.events) && sm.states == old(sm.states))
        && (reply.Decided? && reply.action.UnknownAction? ==>
              o == Break && sm.events == old(sm.events) && sm.states == old(sm.states))
        && (reply.Decided? && !reply.action.UnknownAction? ==> o != Break && sent == old(sent) + 1)
        && (reply.Decided? && reply.action.AcceptOfferAction? ==> o != Next)
    {
      o := TakeTurn(sid);
    }

    /** The failure summary for an exception raised inside the loop. */
    method FailWith(sid: string, err: string) returns (r: Result<CoordinatorResult>)
      requires Ready(sid) && sid in sm.states
      modifies sm
      ensures Ready(sid) && OnlySession(sid) && Extends(old(sm.Log(sid)), sm.Log(sid))
      ensures Concludes(sid, old(sm.states[sid]).n, old(sm.Log(sid)), sm.Log(sid), sm.states[sid], Failed,
                        "Error: " + err, old(sm.clock), r)
      ensures r.Success? && Reports(sid, r.value, sm.states)
      ensures r.value.status == Failed && r.value.message == "Error: " + err && !r.value.data.agreed
    {
      ghost var before := sm.Log(sid);
      r := CompleteSession(sid, Failed, "Error: " + err);
      AppendedExtends(before, sm.Log(sid), CompletionEvents(Failed));
      ConcludesReports(sid, old(sm.states[sid]).n, before, sm.Log(sid), Failed, "Error: " + err, old(sm.clock), r, sm.states);
    }

    /** The summary once the loop stops, with the status the session then has. */
    method Conclude(sid: string) returns (r: Result<CoordinatorResult>)
      requires Ready(sid) && sid in sm.states
      modifies sm
      ensures Ready(sid) && OnlySession(sid) && Extends(old(sm.Log(sid)), sm.Log(sid))
      ensures var n := old(sm.states[sid]).n;
        Concludes(sid, n, old(sm.Log(sid)), sm.Log(sid), sm.states[sid], n.base.status, LoopReason, old(sm.clock), r)
      ensures r.Success? ==> Reports(sid, r.value, sm.states) && r.value.message == LoopReason
    {
      ghost var before := sm.Log(sid);
      var status := sm.states[sid].n.base.status;
      r := CompleteSession(sid, status, LoopReason);
      AppendedExtends(before, sm.Log(sid), CompletionEvents(status));
      if r.Success? {
        ConcludesReports(sid, old(sm.states[sid]).n, before, sm.Log(sid), status, LoopReason, old(sm.clock), r, sm.states);
      }
    }

    /**
     * The loop of `start`: at most `bound` passes, each consulting the
     * agent once while the session is active. A step's result ends it; an
     * exception ends it failed with "Error: " and the exception; otherwise
     * the session is summarised with the status it has when the loop stops.
     * Every result reports the session's final status, and it is agreed
     * exactly when that status is completed and a price was found.
     */
    method RunLoop(sid: string, bound: nat) returns (r: Result<CoordinatorResult>, ghost ending: Ending)
      requires Ready(sid) && sid in sm.states && agent.Some? && messenger.Some?
      modifies this, sm
      ensures Ready(sid) && OnlySession(sid) && Extends(old(sm.Log(sid)), sm.Log(sid))
      ensures consulted <= old(consulted) + bound
      ensures ending != NotStarted
      ensures r.Success? ==> Reports(sid, r.value, sm.states)
      ensures ending == Answered ==> r.Success? && consulted > old(consulted)
      ensures ending.Errored? ==>
        r.Success? && r.value.status == Failed && r.value.message == "Error: " + ending.error
        && !r.value.data.agreed && consulted > old(consulted)
      ensures ending == LoopEnded && r.Success? ==> r.value.message == LoopReason
      ensures var n := old(sm.states[sid]).n;
        n.base.status != Active || bound == 0 ==>
          && consulted == old(consulted) && ending == LoopEnded
          && Concludes(sid, n, old(sm.Log(sid)), sm.Log(sid), sm.states[sid], n.base.status, LoopReason, old(sm.clock), r)
      ensures old(sm.states[sid]).n.base.status == Active && bound > 0 ==> consulted > old(consulted)
    {
      var round := 0;
      ghost var passed := false;
      while round < bound
        invariant 0 <= round <= bound
        invariant Ready(sid) && sid in sm.states && OnlySession(sid)
        invariant Extends(old(sm.Log(sid)), sm.Log(sid))
        invariant consulted <= old(consulted) + round
        invariant passed <==> round > 0
        invariant passed ==> consulted > old(consulted) && old(sm.states[sid]).n.base.status == Active
        invariant !passed ==> consulted == old(consulted) && sm.states == old(sm.states) && sm.Log(sid) == old(sm.Log(sid))
      {
        if sm.states[sid].n.base.status != Active {
          break;
        }
        ghost var log := sm.Log(sid);
        var o := Pass(sid);
        passed := true;
        ExtendsTrans(old(sm.Log(sid)), log, sm.Log(sid));
        match o {
          case Next =>
          case Break =>
            break;
          case Finish(c) =>
            return Success(c), Answered;
          case Raised(err) =>
            ghost var log' := sm.Log(sid);
            r := FailWith(sid, err);
            ExtendsTrans(old(sm.Log(sid)), log', sm.Log(sid));
            return r, Errored(err);
        }
        round := round + 1;
      }
      ghost var log' := sm.Log(sid);
      r := Conclude(sid);
      ExtendsTrans(old(sm.Log(sid)), log', sm.Log(sid));
      ending := LoopEnded;
    }

    /**
     * `start`: without an agent or a messenger, or for an unknown session,
     * it raises before changing anything; otherwise the session is
     * started, `max_rounds` read, and the loop run. `watch` is the timeout
     * for `MonitorTimeout`, when one is configured.
     */
    method Start(sid: string, config: Object) returns (r: Result<CoordinatorResult>, watch: Option<Json>, ghost ending: Ending)
      requires Ready(sid)
      modifies this, sm
      ensures Ready(sid) && OnlySession(sid) && Extends(old(sm.Log(sid)), sm.Log(sid))
      ensures agent.None? || messenger.None? || sid !in old(sm.states) ==>
        r.Failure? && watch.None? && ending == NotStarted && sm.events == old(sm.events) && sm.states == old(sm.states)
      ensures agent.Some? && messenger.Some? && sid in old(sm.states) ==>
        && |sm.Log(sid)| > |old(sm.Log(sid))| && sm.Log(sid)[|old(sm.Log(sid))|].eventType == SessionStarted
        && watch == (if Truthy(Get(config, "timeout")) then Some(Get(config, "timeout")) else None)
        && (ending == NotStarted <==> LoopBound(config).Failure?)
        && (ending == NotStarted ==> r == Failure(LoopBound(config).error))
        && (LoopBound(config).Success? ==> consulted <= old(consulted) + LoopBound(config).value)
        && (LoopBound(config).Success? && LoopBound(config).value > 0 ==> consulted > old(consulted))
        && (LoopBound(config) == Success(0) ==> consulted == old(consulted) && ending == LoopEnded)
      ensures r.Success? ==> Reports(sid, r.value, sm.states)
      ensures ending == Answered ==> r.Success?
      ensures ending.Errored? ==>
        r.Success? && r.value.status == Failed && r.value.message == "Error: " + ending.error && !r.value.data.agreed
      ensures ending == LoopEnded && r.Success? ==> r.value.message == LoopReason
    {
      if agent.None? {
        return Failure("ValueError: Agent is required to start negotiation"), None, NotStarted;
      }
      if messenger.None? {
        return Failure("ValueError: Connection manager is required to start negotiation"), None, NotStarted;
      }
      ghost var before := sm.Log(sid);
      var started := StartSession(sid, config);
      if started.Failure? {
        return Failure(started.error), None, NotStarted;
      }
      watch := started.value;
      ghost var startLog := sm.Log(sid);
      AppendedExtends(before, startLog, [SessionStarted]);
      AppendedTail(before, startLog, [SessionStarted], 0);
      var bound := LoopBound(config);
      if bound.Failure? {
        return Failure(bound.error), watch, NotStarted;
      }
      r, ending := RunLoop(sid, bound.value);
      ExtendsTrans(before, startLog, sm.Log(sid));
    }
  }
}
