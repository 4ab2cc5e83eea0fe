/**
 * The steps both reverse-auction coordinators take on the store: each
 * event they log, with its effect on the auction state, and the handlers
 * of `_handle_offer`, `_complete_session`, `handle_message`,
 * `start_session` and `cancel_session`, which the two coordinators share
 * line for line apart from the `emitter` tag.
 */
module AuctionSteps {
  import opened Wrappers
  import opened Json
  import opened Types
  import opened Events
  import opened SessionStates
  import opened StateManagement
  import opened MessageParsing
  import opened Messages
  import opened Coordination
  import opened AuctionRules

  /** The store is consistent, and the session, if stored, is a reverse auction. */
  ghost predicate Ready(sm: StateManager, sid: string)
    reads sm
  {
    sm.Valid() && (sid in sm.states ==> sm.states[sid].AuctionSession?)
  }

  /** Nothing but the session `sid`'s log and state changed. */
  twostate predicate OnlySession(sm: StateManager, sid: string)
    reads sm
  {
    && sm.events - {sid} == old(sm.events) - {sid}
    && sm.states - {sid} == old(sm.states) - {sid}
    && sm.states.Keys == old(sm.states.Keys)
    && sm.contextToSession == old(sm.contextToSession)
    && sm.initial == old(sm.initial)
    && sm.clock == old(sm.clock)
  }

  /** A round end or a discovery sent out: logged, and only the update time changes. */
  method RecordQuiet(sm: StateManager, sid: string, t: EventType, data: Object, ctx: Option<string>) returns (e: Event)
    requires Ready(sm, sid) && Quiet(t)
    modifies sm
    ensures Ready(sm, sid) && OnlySession(sm, sid)
    ensures sm.Log(sid) == old(sm.Log(sid)) + [e]
    ensures e.eventType == t && e.data == data && e.contextId == ctx && e.timestamp == old(sm.clock)
    ensures sid in old(sm.states) ==> sid in sm.states && sm.states[sid] == AuctionSession(Touched(old(sm.states[sid]).a, old(sm.clock)))
    ensures sid !in old(sm.states) ==> sm.states == old(sm.states)
  {
    var err;
    e, err := sm.EmitEvent(sid, t, data, ctx, None);
    if sid in old(sm.states) {
      QuietFold(old(sm.states[sid]).a, e);
    }
  }

  /** REVERSE_AUCTION_STARTED, on the session's primary context: the auction becomes active. */
  method RecordStart(sm: StateManager, sid: string, em: Emitter) returns (e: Event)
    requires Ready(sm, sid) && sid in sm.states
    modifies sm
    ensures Ready(sm, sid) && OnlySession(sm, sid) && sid in sm.states
    ensures var a := old(sm.states[sid]).a;
      && sm.Log(sid) == old(sm.Log(sid)) + [e]
      && e.eventType == ReverseAuctionStarted && e.data == StartedData(a, em) && e.contextId == a.base.contextId
      && sm.states[sid] == AuctionSession(Touched(a, old(sm.clock)).(base := Touched(a, old(sm.clock)).base.(status := Active)))
  {
    var a := sm.states[sid].a;
    var err;
    e, err := sm.EmitEvent(sid, ReverseAuctionStarted, StartedData(a, em), a.base.contextId, None);
    AuctionStartedFold(a, e);
  }

  /** BIDDING_ROUND_STARTED(r): round `r` becomes current and gets a bucket. */
  method RecordOpen(sm: StateManager, sid: string, r: int, em: Emitter) returns (e: Event)
    requires Ready(sm, sid) && sid in sm.states
    modifies sm
    ensures Ready(sm, sid) && OnlySession(sm, sid) && sid in sm.states
    ensures var a := old(sm.states[sid]).a;
      && sm.Log(sid) == old(sm.Log(sid)) + [e]
      && e.eventType == BiddingRoundStarted && e.data == RoundOpenData(r, a.roundDuration, em) && e.contextId == None
      && sm.states[sid] == AuctionSession(Opened(a, r, old(sm.clock)))
  {
    var a := sm.states[sid].a;
    var err;
    e, err := sm.EmitEvent(sid, BiddingRoundStarted, RoundOpenData(r, a.roundDuration, em), None, None);
    assert Stamp(map["round_number" := JNum(r), "round_duration" := JNum(a.roundDuration)], em)["round_number"] == JNum(r);
    RoundOpenFold(a, e, r);
  }

  /** OFFER_RECEIVED carrying the offer and the current round: the offer joins that round. */
  method RecordOffer(sm: StateManager, sid: string, o: Offer, ctx: Option<string>, em: Emitter) returns (e: Event)
    requires Ready(sm, sid) && sid in sm.states
    modifies sm
    ensures Ready(sm, sid) && OnlySession(sm, sid) && sid in sm.states
    ensures var a := old(sm.states[sid]).a;
      && sm.Log(sid) == old(sm.Log(sid)) + [e]
      && e.eventType == OfferReceived && e.data == OfferEventData(o, a.currentRound, em) && e.contextId == ctx
      && sm.states[sid] == AuctionSession(WithOffer(Touched(a, old(sm.clock)), o, Some(a.currentRound), old(sm.clock)))
  {
    var a := sm.states[sid].a;
    var err;
    e, err := sm.EmitEvent(sid, OfferReceived, OfferEventData(o, a.currentRound, em), ctx, None);
    OfferFold(a, e, o, a.currentRound);
  }

  /** The part of a log after `log0`: offer events carrying `got`, tagged with `round`. */
  ghost predicate OffersLogged(log0: seq<Event>, log: seq<Event>, got: seq<Offer>, round: int, em: Emitter) {
    && |log| == |log0| + |got| && log[..|log0|] == log0
    && forall i :: |log0| <= i < |log| ==>
         log[i].eventType == OfferReceived && log[i].data == OfferEventData(got[i - |log0|], round, em)
  }

  /** The events offers are logged as are all OFFER_RECEIVED. */
  lemma OffersQuiet(log0: seq<Event>, log: seq<Event>, got: seq<Offer>, round: int, em: Emitter)
    requires OffersLogged(log0, log, got, round, em)
    ensures |log[|log0|..]| == |got| && forall i :: 0 <= i < |got| ==> log[|log0|..][i].eventType == OfferReceived
  {
    forall i | 0 <= i < |got|
      ensures log[|log0|..][i].eventType == OfferReceived
    {
      assert log[|log0|..][i] == log[|log0| + i];
    }
  }

  /** `_handle_offer`: `err` is the exception `Offer.from_dict` raises. */
  method HandleOffer(sm: StateManager, sid: string, m: ParsedMessage, em: Emitter) returns (err: Option<string>)
    requires Ready(sm, sid)
    modifies sm
    ensures Ready(sm, sid) && OnlySession(sm, sid)
    ensures sid !in old(sm.states) ==> err.None? && sm.events == old(sm.events) && sm.states == old(sm.states)
    ensures sid in old(sm.states) ==>
      var rr, a := ReadReply(m, old(sm.clock)), old(sm.states[sid]).a;
      && sid in sm.states
      && (err.Some? <==> rr.Failure?) && (rr.Failure? ==> err == Some(rr.error))
      && (Got(rr) == [] ==> sm.events == old(sm.events) && sm.states == old(sm.states))
      && OffersLogged(old(sm.Log(sid)), sm.Log(sid), Got(rr), a.currentRound, em)
      && (Got(rr) != [] ==> sm.Log(sid)[|old(sm.Log(sid))|].contextId == ContextOf(m.contextId))
      && Collected(a, sm.states[sid].a, Got(rr))
  {
    if sid !in sm.states || !Truthy(m.offerData) {
      assert sm.Log(sid)[..|sm.Log(sid)|] == sm.Log(sid);
      return None;
    }
    var a := sm.states[sid].a;
    var read := OfferFromJson(m.offerData, sm.clock);
    if read.Failure? {
      assert sm.Log(sid)[..|sm.Log(sid)|] == sm.Log(sid);
      return Some(read.error);
    }
    var now := sm.clock;
    var e := RecordOffer(sm, sid, read.value, ContextOf(m.contextId), em);
    OfferCollected(a, read.value, now);
    assert sm.Log(sid)[..|old(sm.Log(sid))|] == old(sm.Log(sid));
    err := None;
  }

  lemma OffersLoggedMore(log0: seq<Event>, log1: seq<Event>, log: seq<Event>, got: seq<Offer>, g: seq<Offer>,
                         round: int, em: Emitter)
    requires OffersLogged(log0, log1, got, round, em) && OffersLogged(log1, log, g, round, em)
    ensures OffersLogged(log0, log, got + g, round, em)
  {
    assert log[..|log0|] == log[..|log1|][..|log0|];
    forall k | 0 <= k < |got + g|
      ensures log[|log0| + k].eventType == OfferReceived && log[|log0| + k].data == OfferEventData((got + g)[k], round, em)
    {
      if k < |got| {
        assert log1[|log0| + k] == log[..|log1|][|log0| + k];
        assert (got + g)[k] == got[k];
      } else {
        assert log[|log0| + k] == log[|log1| + (k - |got|)];
        assert (got + g)[k] == g[k - |got|];
      }
    }
  }

  /** One message of a reply: an offer message goes to `_handle_offer`, whose exception stops that seller's task. */
  method HarvestStep(sm: StateManager, sid: string, m: ParsedMessage, em: Emitter) returns (stop: bool, ghost g: seq<Offer>)
    requires Ready(sm, sid) && sid in sm.states
    modifies sm
    ensures Ready(sm, sid) && OnlySession(sm, sid) && sid in sm.states
    ensures stop == Stops(m, old(sm.clock)) && g == Taken(m, old(sm.clock))
    ensures Collected(old(sm.states[sid]).a, sm.states[sid].a, g)
    ensures OffersLogged(old(sm.Log(sid)), sm.Log(sid), g, old(sm.states[sid]).a.currentRound, em)
  {
    ghost var a := sm.states[sid].a;
    stop, g := false, [];
    if m.messageType == OfferMsg {
      var err := HandleOffer(sm, sid, m, em);
      stop := err.Some?;
      g := Got(ReadReply(m, old(sm.clock)));
    }
    if g == [] {
      CollectedSelf(a);
      assert sm.Log(sid)[..|old(sm.Log(sid))|] == old(sm.Log(sid));
    }
  }

  /** The offers of one reply, as its task records them. */
  method Harvest(sm: StateManager, sid: string, msgs: seq<ParsedMessage>, em: Emitter) returns (ghost got: seq<Offer>)
    requires Ready(sm, sid) && sid in sm.states
    modifies sm
    ensures Ready(sm, sid) && OnlySession(sm, sid) && sid in sm.states
    ensures got == Harvested(msgs, old(sm.clock))
    ensures Collected(old(sm.states[sid]).a, sm.states[sid].a, got)
    ensures OffersLogged(old(sm.Log(sid)), sm.Log(sid), got, old(sm.states[sid]).a.currentRound, em)
  {
    ghost var a0, log0, now := sm.states[sid].a, sm.Log(sid), sm.clock;
    got := [];
    CollectedSelf(a0);
    assert log0[..|log0|] == log0;
    HarvestedEnds(msgs, got, now);
    var j := 0;
    while j < |msgs|
      invariant 0 <= j <= |msgs|
      invariant Ready(sm, sid) && OnlySession(sm, sid) && sid in sm.states
      invariant got + Harvested(msgs[j..], now) == Harvested(msgs, now)
      invariant Collected(a0, sm.states[sid].a, got)
      invariant OffersLogged(log0, sm.Log(sid), got, a0.currentRound, em)
    {
      ghost var a1, log1 := sm.states[sid].a, sm.Log(sid);
      var stop, g := HarvestStep(sm, sid, msgs[j], em);
      HarvestedNext(msgs, j, got, now);
      CollectedTrans(a0, a1, sm.states[sid].a, got, g);
      OffersLoggedMore(log0, log1, sm.Log(sid), got, g, a0.currentRound, em);
      if stop {
        assert got + g == got;
        return;
      }
      got := got + g;
      j := j + 1;
    }
    HarvestedEnds(msgs, got, now);
  }

  /** One counterparty's task once its send returned: a send that raised records nothing. */
  method ReplyStep(sm: StateManager, sid: string, reply: Result<seq<ParsedMessage>>, em: Emitter)
    returns (ghost g: seq<Offer>)
    requires Ready(sm, sid) && sid in sm.states
    modifies sm
    ensures Ready(sm, sid) && OnlySession(sm, sid) && sid in sm.states
    ensures g == Replied(reply, old(sm.clock))
    ensures Collected(old(sm.states[sid]).a, sm.states[sid].a, g)
    ensures OffersLogged(old(sm.Log(sid)), sm.Log(sid), g, old(sm.states[sid]).a.currentRound, em)
  {
    if reply.Success? {
      g := Harvest(sm, sid, reply.value, em);
    } else {
      g := [];
      CollectedSelf(sm.states[sid].a);
      assert sm.Log(sid)[..|sm.Log(sid)|] == sm.Log(sid);
    }
  }

  /** The replies of every counterparty, handled one after the other. */
  method Collect(sm: StateManager, sid: string, replies: seq<Result<seq<ParsedMessage>>>, em: Emitter)
    returns (ghost got: seq<Offer>)
    requires Ready(sm, sid) && sid in sm.states
    modifies sm
    ensures Ready(sm, sid) && OnlySession(sm, sid) && sid in sm.states
    ensures got == Gathered(replies, old(sm.clock))
    ensures Collected(old(sm.states[sid]).a, sm.states[sid].a, got)
    ensures OffersLogged(old(sm.Log(sid)), sm.Log(sid), got, old(sm.states[sid]).a.currentRound, em)
  {
    ghost var a0, log0, now := sm.states[sid].a, sm.Log(sid), sm.clock;
    got := [];
    CollectedSelf(a0);
    assert log0[..|log0|] == log0;
    GatheredEnds(replies, got, now);
    var i := 0;
    while i < |replies|
      invariant 0 <= i <= |replies|
      invariant Ready(sm, sid) && OnlySession(sm, sid) && sid in sm.states
      invariant got + Gathered(replies[i..], now) == Gathered(replies, now)
      invariant Collected(a0, sm.states[sid].a, got)
      invariant OffersLogged(log0, sm.Log(sid), got, a0.currentRound, em)
    {
      ghost var a1, log1 := sm.states[sid].a, sm.Log(sid);
      ghost var g := ReplyStep(sm, sid, replies[i], em);
      GatheredNext(replies, i, got, now);
      CollectedTrans(a0, a1, sm.states[sid].a, got, g);
      OffersLoggedMore(log0, log1, sm.Log(sid), got, g, a0.currentRound, em);
      got := got + g;
      i := i + 1;
    }
    GatheredEnds(replies, got, now);
  }

  /**
   * `_complete_session`: a missing session fails with "Session not found";
   * otherwise the completion event carrying `status` and `reason` is
   * logged and the result summarises the state found before it.
   */
  method Complete(sm: StateManager, sid: string, status: Status, reason: string, em: Emitter) returns (r: CoordinatorResult)
    requires Ready(sm, sid)
    modifies sm
    ensures Ready(sm, sid) && OnlySession(sm, sid)
    ensures sid !in old(sm.states) ==>
      r == NotFound(sid, ReverseAuction, SessionMissingReason) && sm.events == old(sm.events) && sm.states == old(sm.states)
    ensures sid in old(sm.states) ==>
      var a, now := old(sm.states[sid]).a, old(sm.clock);
      && |sm.Log(sid)| == |old(sm.Log(sid))| + 1 && sm.Log(sid)[..|old(sm.Log(sid))|] == old(sm.Log(sid))
      && var e := sm.Log(sid)[|old(sm.Log(sid))|];
      && e.eventType == CompletionType(status) && e.data == CompletionData(status, reason, a.allOffers, em)
      && e.contextId == None
      && sid in sm.states
      && sm.states[sid] == AuctionSession(Touched(a, now).(base := Touched(a, now).base.(status := CompletedStatus(status))))
      && r == AuctionSummary(sid, a, status, reason, now)
  {
    if sid !in sm.states {
      return NotFound(sid, ReverseAuction, SessionMissingReason);
    }
    var a := sm.states[sid].a;
    var e, err := sm.EmitEvent(sid, CompletionType(status), CompletionData(status, reason, a.allOffers, em), None, None);
    CompletionFold(a, e, status);
    assert sm.Log(sid)[..|old(sm.Log(sid))|] == old(sm.Log(sid));
    r := AuctionSummary(sid, a, status, reason, sm.clock);
  }

  /** `cancel_session`: a stored session is cancelled "by user"; a missing one is reported as such. */
  method Cancel(sm: StateManager, sid: string, em: Emitter) returns (cancelled: bool)
    requires Ready(sm, sid)
    modifies sm
    ensures Ready(sm, sid) && OnlySession(sm, sid)
    ensures cancelled <==> sid in old(sm.states)
    ensures !cancelled ==> sm.events == old(sm.events) && sm.states == old(sm.states)
    ensures cancelled ==>
      var a, now := old(sm.states[sid]).a, old(sm.clock);
      && |sm.Log(sid)| == |old(sm.Log(sid))| + 1 && sm.Log(sid)[..|old(sm.Log(sid))|] == old(sm.Log(sid))
      && sm.Log(sid)[|old(sm.Log(sid))|].eventType == SessionCancelled
      && sm.Log(sid)[|old(sm.Log(sid))|].data == Stamp(map["reason" := JStr(UserCancelReason)], em)
      && sid in sm.states
      && sm.states[sid] == AuctionSession(Touched(a, now).(base := Touched(a, now).base.(status := Cancelled)))
  {
    if sid !in sm.states {
      return false;
    }
    var a := sm.states[sid].a;
    var e, err := sm.EmitEvent(sid, SessionCancelled, Stamp(map["reason" := JStr(UserCancelReason)], em), None, None);
    CompletionFold(a, e, Cancelled);
    assert sm.Log(sid)[..|old(sm.Log(sid))|] == old(sm.Log(sid));
    cancelled := true;
  }

  /**
   * `start_session`: a session the store does not hold raises; otherwise
   * REVERSE_AUCTION_STARTED makes it active and its rounds are reported.
   */
  method StartSession(sm: StateManager, sid: string, em: Emitter) returns (r: Result<StartInfo>)
    requires Ready(sm, sid)
    modifies sm
    ensures Ready(sm, sid) && OnlySession(sm, sid)
    ensures sid !in old(sm.states) ==>
      r == Failure("ValueError: Session " + sid + " not found in StateManager")
      && sm.events == old(sm.events) && sm.states == old(sm.states)
    ensures sid in old(sm.states) ==>
      var a, now := old(sm.states[sid]).a, old(sm.clock);
      && r == Success(StartInfo(sid, Active, a.totalRounds, StartedMessage))
      && |sm.Log(sid)| == |old(sm.Log(sid))| + 1 && sm.Log(sid)[..|old(sm.Log(sid))|] == old(sm.Log(sid))
      && sm.Log(sid)[|old(sm.Log(sid))|].eventType == ReverseAuctionStarted
      && sm.Log(sid)[|old(sm.Log(sid))|].data == StartedData(a, em)
      && sm.Log(sid)[|old(sm.Log(sid))|].contextId == a.base.contextId
      && sid in sm.states
      && sm.states[sid] == AuctionSession(Touched(a, now).(base := Touched(a, now).base.(status := Active)))
  {
    if sid !in sm.states {
      return Failure("ValueError: Session " + sid + " not found in StateManager");
    }
    var a := sm.states[sid].a;
    var e := RecordStart(sm, sid, em);
    assert sm.Log(sid)[..|old(sm.Log(sid))|] == old(sm.Log(sid));
    r := Success(StartInfo(sid, Active, a.totalRounds, StartedMessage));
  }

  /** `_handle_discovery`: DISCOVERY_RECEIVED, on the message's context; the message joins the state's list. */
  method HandleDiscovery(sm: StateManager, sid: string, m: ParsedMessage, em: Emitter)
    requires Ready(sm, sid)
    modifies sm
    ensures Ready(sm, sid) && OnlySession(sm, sid)
    ensures |sm.Log(sid)| == |old(sm.Log(sid))| + 1 && sm.Log(sid)[..|old(sm.Log(sid))|] == old(sm.Log(sid))
    ensures var e := sm.Log(sid)[|old(sm.Log(sid))|];
      e.eventType == DiscoveryReceived && e.data == ReceivedData(m.discoveryData, em) && e.contextId == ContextOf(m.contextId)
    ensures sid !in old(sm.states) ==> sm.states == old(sm.states)
    ensures sid in old(sm.states) ==>
      var a, now := old(sm.states[sid]).a, old(sm.clock);
      && sid in sm.states
      && sm.states[sid] == AuctionSession(Touched(a, now).(discoveryMessages := a.discoveryMessages
                             + [DiscoveryEntry(ObjectOr(m.discoveryData), now, ContextOf(m.contextId))]))
  {
    var e, err := sm.EmitEvent(sid, DiscoveryReceived, ReceivedData(m.discoveryData, em), ContextOf(m.contextId), None);
    if sid in old(sm.states) {
      DiscoveryReceivedFold(old(sm.states[sid]).a, e, ObjectOr(m.discoveryData));
    }
    assert sm.Log(sid)[..|old(sm.Log(sid))|] == old(sm.Log(sid));
  }

  /**
   * What `handle_message` does to an active auction `a` whose log was
   * `log0`, at time `now`: the log becomes `log`, the state `a'`, and the
   * answer is `r`. A discovery logs DISCOVERY_RECEIVED on the message's
   * context and joins the state's list; an offer is logged and collected
   * as `_handle_offer` does; a "cancel" action logs SESSION_CANCELLED
   * "by participant" and answers with the summary; any other action is
   * ignored.
   */
  ghost predicate MessageHandled(sid: string, m: ParsedMessage, em: Emitter, a: AuctionView, now: Timestamp,
                                 log0: seq<Event>, log: seq<Event>, a': AuctionView,
                                 r: Result<Option<CoordinatorResult>>)
  {
    && (m.messageType == DiscoveryMsg ==>
          && r == Success(None)
          && |log| == |log0| + 1 && log[..|log0|] == log0
          && log[|log0|].eventType == DiscoveryReceived
          && log[|log0|].data == ReceivedData(m.discoveryData, em)
          && log[|log0|].contextId == ContextOf(m.contextId)
          && a' == Touched(a, now).(discoveryMessages := a.discoveryMessages
                     + [DiscoveryEntry(ObjectOr(m.discoveryData), now, ContextOf(m.contextId))]))
    && (m.messageType == OfferMsg ==>
          var rr := ReadReply(m, now);
          && (r.Failure? <==> rr.Failure?) && (r.Success? ==> r.value == None)
          && OffersLogged(log0, log, Got(rr), a.currentRound, em)
          && Collected(a, a', Got(rr)))
    && (m.messageType == ActionMsg && m.action == JStr("cancel") ==>
          && r == Success(Some(AuctionSummary(sid, a, Cancelled, ParticipantCancelReason, now)))
          && |log| == |log0| + 1 && log[..|log0|] == log0
          && log[|log0|].eventType == SessionCancelled
          && log[|log0|].data == CompletionData(Cancelled, ParticipantCancelReason, a.allOffers, em)
          && log[|log0|].contextId == None
          && a' == Touched(a, now).(base := Touched(a, now).base.(status := Cancelled)))
  }

  /**
   * `handle_message`: an unknown or inactive session is left alone, and so
   * is an action other than "cancel"; an active session handles the
   * message as `MessageHandled` says.
   */
  method HandleMessage(sm: StateManager, sid: string, m: ParsedMessage, em: Emitter)
    returns (r: Result<Option<CoordinatorResult>>)
    requires Ready(sm, sid)
    modifies sm
    ensures Ready(sm, sid) && OnlySession(sm, sid)
    ensures sid !in old(sm.states) || old(sm.states[sid]).a.base.status != Active
            || (m.messageType == ActionMsg && m.action != JStr("cancel")) ==>
      r == Success(None) && sm.events == old(sm.events) && sm.states == old(sm.states)
    ensures sid in old(sm.states) && old(sm.states[sid]).a.base.status == Active ==>
      && sid in sm.states
      && MessageHandled(sid, m, em, old(sm.states[sid]).a, old(sm.clock), old(sm.Log(sid)), sm.Log(sid), sm.states[sid].a, r)
  {
    if sid !in sm.states || sm.states[sid].a.base.status != Active {
      return Success(None);
    }
    match m.messageType {
      case DiscoveryMsg =>
        HandleDiscovery(sm, sid, m, em);
        r := Success(None);
      case OfferMsg =>
        var err := HandleOffer(sm, sid, m, em);
        r := if err.Some? then Failure(err.value) else Success(None);
      case ActionMsg =>
        if m.action == JStr("cancel") {
          var c := Complete(sm, sid, Cancelled, ParticipantCancelReason, em);
          r := Success(Some(c));
        } else {
          r := Success(None);
        }
    }
  }
}
