/**
 * What both reverse-auction coordinators compute without touching the
 * store: the round's discovery payload and its default market message,
 * the event payloads they log, the result summary, and the effect of
 * each logged event on an auction state.
 */
module AuctionRules {
  import opened Wrappers
  import opened Json
  import opened Dicts
  import opened Types
  import opened Events
  import opened SessionStates
  import opened MessageParsing
  import opened Messages
  import opened Coordination
  import Text

  // ---------------------------------------------------------------------
  // The market message

  /**
   * `f"{x:.2f}"`, rounding the exact value half up, which for the
   * non-negative prices it is used on is half away from zero (Python
   * rounds the nearest double half to even).
   */
  function Fixed2(x: real): string {
    var c := (x * 100.0 + 0.5).Floor;
    var a: nat := if c < 0 then -c else c;
    (if c < 0 then "-" else "") + Text.DecimalText(a / 100) + "." + [Text.DigitChar(a % 100 / 10), Text.DigitChar(a % 10)]
  }

  function RoundHeader(r: int): string {
    "Round " + Text.IntText(r) + " started - please submit your offer."
  }

  /** The paragraph reporting the previous round's offers. */
  function MarketText(prevRound: int, count: nat, pr: PriceRange): string {
    "\n\nPrevious round (Round " + Text.IntText(prevRound) + ") market info:"
    + "\n- " + Text.DecimalText(count) + " offers received"
    + "\n- Lowest offer: $" + Fixed2(pr.min as real)
    + "\n- Highest offer: $" + Fixed2(pr.max as real)
    + "\n- Average offer: $" + Fixed2(pr.avg)
    + "\n\nAdjust your price to be more competitive if needed."
  }

  /**
   * The default discovery message of round `r`: the round header, then
   * the previous round's market report when `r > 1` and that round
   * received offers.
   */
  function DefaultMessage(r: int, prev: seq<Offer>): (msg: string)
    ensures RoundHeader(r) <= msg
    ensures msg == RoundHeader(r) <==> r <= 1 || prev == []
    ensures r > 1 && prev != [] ==> msg == RoundHeader(r) + MarketText(r - 1, |prev|, RangeOf(PricesOf(prev)))
  {
    var m := RoundHeader(r) + if r > 1 && prev != [] then MarketText(r - 1, |prev|, RangeOf(PricesOf(prev))) else "";
    assert r > 1 && prev != [] ==> |m| > |RoundHeader(r)|;
    m
  }

  /**
   * The figures the market report gives are those of the previous
   * round's offers: the least and the greatest are prices of offers in
   * it, every offer lies between them, and so does the average.
   */
  lemma MarketReportBounds(prev: seq<Offer>)
    requires prev != []
    ensures var pr := RangeOf(PricesOf(prev));
      && (exists i :: 0 <= i < |prev| && prev[i].price == pr.min)
      && (exists i :: 0 <= i < |prev| && prev[i].price == pr.max)
      && (forall i :: 0 <= i < |prev| ==> pr.min <= prev[i].price <= pr.max)
      && pr.min as real <= pr.avg <= pr.max as real
  {
    var ps := PricesOf(prev);
    RangeBounds(ps);
    var pr := RangeOf(ps);
    var i :| 0 <= i < |ps| && ps[i] == pr.min;
    var j :| 0 <= j < |ps| && ps[j] == pr.max;
    forall k | 0 <= k < |prev|
      ensures pr.min <= prev[k].price <= pr.max
    {
      assert ps[k] in ps;
    }
  }

  // ---------------------------------------------------------------------
  // The discovery payload of a round

  /** The message and extra fields of an agent's SendDiscoveryAction; any other reply is not used. */
  function Custom(reply: Option<AgentReply>): (c: Option<(string, Object)>)
    ensures c.Some? <==> reply.Some? && reply.value.Decided? && reply.value.action.SendDiscoveryAction?
    ensures c.Some? ==> c.value.0 == reply.value.action.text
  {
    match reply
    case Some(Decided(SendDiscoveryAction(text, data))) => Some((text, if data.Some? then data.value else map[]))
    case _ => None
  }

  /** The message and extra fields of round `r`: the agent's, or the default message and none. */
  function Prompt(custom: Option<(string, Object)>, r: int, prev: seq<Offer>): (string, Object) {
    if custom.Some? then custom.value else (DefaultMessage(r, prev), map[])
  }

  const BuiltInKeys: set<string> := {"type", "round_number", "total_rounds", "message"}

  /**
   * `{"type": "round_started", "round_number": r, "total_rounds": total,
   * "message": message, **extra}`: the extra fields are all present and
   * win over the built-in ones they name.
   */
  function RoundDiscoveryData(r: int, total: int, message: string, extra: Object): (d: Object)
    ensures d.Keys == BuiltInKeys + extra.Keys
    ensures forall k :: k in extra ==> d[k] == extra[k]
    ensures "type" !in extra ==> d["type"] == JStr("round_started")
    ensures "round_number" !in extra ==> d["round_number"] == JNum(r)
    ensures "total_rounds" !in extra ==> d["total_rounds"] == JNum(total)
    ensures "message" !in extra ==> d["message"] == JStr(message)
  {
    map["type" := JStr("round_started"), "round_number" := JNum(r), "total_rounds" := JNum(total),
        "message" := JStr(message)] + extra
  }

  // ---------------------------------------------------------------------
  // Event payloads

  /** Whether a coordinator tags its events with `"emitter": uuid`. */
  datatype Emitter = Untagged | Tagged(uuid: Option<string>)

  function Stamp(data: Object, em: Emitter): (d: Object)
    ensures forall k :: k != "emitter" ==> (k in d <==> k in data) && (k in data ==> d[k] == data[k])
    ensures em.Tagged? ==> "emitter" in d && d["emitter"] == OptStr(em.uuid)
    ensures em.Untagged? ==> d == data
  {
    if em.Tagged? then data["emitter" := OptStr(em.uuid)] else data
  }

  function StartedData(a: AuctionView, em: Emitter): Object {
    Stamp(map["total_rounds" := JNum(a.totalRounds), "round_duration" := JNum(a.roundDuration),
              "expected_participants" := JNum(a.expectedParticipants)], em)
  }

  function RoundOpenData(r: int, duration: int, em: Emitter): Object {
    Stamp(map["round_number" := JNum(r), "round_duration" := JNum(duration)], em)
  }

  function RoundCloseData(r: int, count: nat, em: Emitter): Object {
    Stamp(map["round_number" := JNum(r), "offers_received" := JNum(count)], em)
  }

  function DiscoveryEventData(d: Object, em: Emitter): Object {
    Stamp(map["discovery_data" := JObj(d)], em)
  }

  /** DISCOVERY_RECEIVED's data: the message's discovery data, `{}` when it is falsy. */
  function ReceivedData(discoveryData: Json, em: Emitter): Object {
    Stamp(map["discovery_data" := ObjectOr(discoveryData)], em)
  }

  function OfferEventData(o: Offer, round: int, em: Emitter): Object {
    Stamp(map["offer" := JObj(OfferToDict(o)), "round" := JNum(round)], em)
  }

  /** `[o.to_dict() for o in offers]`. */
  function OffersJson(offers: seq<Offer>): (js: seq<Json>)
    ensures |js| == |offers| && forall i :: 0 <= i < |offers| ==> js[i] == JObj(OfferToDict(offers[i]))
  {
    seq(|offers|, i requires 0 <= i < |offers| => JObj(OfferToDict(offers[i])))
  }

  /** The event `_complete_session` logs: COMPLETED, CANCELLED, and FAILED for any other status. */
  function CompletionType(status: Status): (t: EventType)
    ensures t == SessionCompleted <==> status == Completed
    ensures t == SessionCancelled <==> status == Cancelled
    ensures t == SessionFailed <==> status != Completed && status != Cancelled
  {
    if status == Completed then SessionCompleted
    else if status == Cancelled then SessionCancelled
    else SessionFailed
  }

  function CompletionData(status: Status, reason: string, offers: seq<Offer>, em: Emitter): Object {
    if status == Completed then
      Stamp(map["reason" := JStr(reason), "total_offers" := JNum(|offers|), "all_offers" := JArr(OffersJson(offers))], em)
    else Stamp(map["reason" := JStr(reason)], em)
  }

  // ---------------------------------------------------------------------
  // The result

  const SessionMissingReason := "Session not found"
  const InvalidStateReason := "Invalid session state"
  const NoOffersReason := "No offers received"
  const CollectedReason := "Reverse auction complete - all offers collected"
  const ParticipantCancelReason := "Cancelled by participant"
  const UserCancelReason := "Cancelled by user"

  /** The reason the auction ends with once its rounds are over. */
  function FinalReason(offers: seq<Offer>): (reason: string)
    ensures reason == NoOffersReason <==> offers == []
  {
    if offers == [] then NoOffersReason else CollectedReason
  }

  /** The result `_complete_session` builds from the state it finds. */
  function AuctionSummary(sid: string, a: AuctionView, status: Status, reason: string, now: Timestamp)
    : (r: CoordinatorResult)
    ensures r.status == status && r.message == reason && r.sessionId == sid && r.sessionType == ReverseAuction
    ensures r.data.AuctionData? && r.data.allOffers == a.allOffers && r.data.totalOffers == |a.allOffers|
    ensures r.data.success <==> a.allOffers != []
    ensures r.data.priceRange.Some? <==> a.allOffers != []
  {
    var all := a.allOffers;
    CoordinatorResult(status, sid, ReverseAuction,
      AuctionData(a.currentRound, |all|, all, a.base.createdAt, now,
                  if all != [] then Some(RangeOf(PricesOf(all))) else None, all != []),
      reason)
  }

  /**
   * The summary reports the requested status and reason, every offer
   * received and how many; it succeeds exactly when there is an offer,
   * and only then carries a price range, which bounds every offer.
   */
  lemma SummaryFacts(sid: string, a: AuctionView, status: Status, reason: string, now: Timestamp)
    ensures var r := AuctionSummary(sid, a, status, reason, now);
      && r.status == status && r.message == reason && r.sessionId == sid && r.sessionType == ReverseAuction
      && r.data.AuctionData? && r.data.allOffers == a.allOffers && r.data.totalOffers == |a.allOffers|
      && r.data.rounds == a.currentRound
      && (r.data.success <==> a.allOffers != [])
      && (r.data.priceRange.Some? <==> a.allOffers != [])
      && (r.data.priceRange.Some? ==>
            var pr := r.data.priceRange.value;
            (forall i :: 0 <= i < |a.allOffers| ==> pr.min <= a.allOffers[i].price <= pr.max)
            && pr.min as real <= pr.avg <= pr.max as real)
  {
    if a.allOffers != [] {
      MarketReportBounds(a.allOffers);
    }
  }

  /** What `start_session` returns. */
  datatype StartInfo = StartInfo(sessionId: string, status: Status, rounds: int, message: string)

  const StartedMessage := "Reverse auction started"

  /** What `get_session_status` reports. */
  datatype StatusReport = StatusReport(sessionId: string, status: Status, currentRound: int, totalRounds: int,
                                       offersReceived: nat)

  function Report(sid: string, sv: Option<SessionView>): (r: Option<StatusReport>)
    ensures r.Some? <==> sv.Some? && sv.value.AuctionSession?
    ensures r.Some? ==> r.value.offersReceived == |sv.value.a.allOffers| && r.value.status == sv.value.a.base.status
  {
    match sv
    case Some(AuctionSession(a)) => Some(StatusReport(sid, a.base.status, a.currentRound, a.totalRounds, |a.allOffers|))
    case _ => None
  }

  // ---------------------------------------------------------------------
  // What each logged event does to an auction state

  function Touched(a: AuctionView, now: Timestamp): AuctionView {
    a.(base := a.base.(updatedAt := now))
  }

  /** A state already stamped at `now` is left as it is by another touch at `now`. */
  lemma TouchedAgain(a: AuctionView, now: Timestamp)
    requires a.base.updatedAt == now
    ensures Touched(a, now) == a
  {
  }

  /** The state BIDDING_ROUND_STARTED(r) leaves: round `r` is current and has a bucket. */
  function Opened(a: AuctionView, r: int, now: Timestamp): (a': AuctionView)
    ensures r in a'.offersByRound.entries
  {
    Touched(a, now).(currentRound := r, roundStartTime := Some(now),
                     offersByRound := if r in a.offersByRound.entries then a.offersByRound else a.offersByRound.Put(r, []))
  }

  lemma AuctionStartedFold(a: AuctionView, e: Event)
    requires e.eventType == ReverseAuctionStarted
    ensures FoldAuction(a, e, e.timestamp) == Touched(a, e.timestamp).(base := Touched(a, e.timestamp).base.(status := Active))
  {
  }

  lemma RoundOpenFold(a: AuctionView, e: Event, r: int)
    requires e.eventType == BiddingRoundStarted && "round_number" in e.data && e.data["round_number"] == JNum(r)
    ensures FoldAuction(a, e, e.timestamp) == Opened(a, r, e.timestamp)
  {
  }

  /** The events that only record something: round ends and discovery sent out. */
  predicate Quiet(t: EventType) {
    t == BiddingRoundEnded || t == DiscoveryMessage || t == DiscoverySent
  }

  lemma QuietFold(a: AuctionView, e: Event)
    requires Quiet(e.eventType)
    ensures FoldAuction(a, e, e.timestamp) == Touched(a, e.timestamp)
  {
  }

  lemma OfferFold(a: AuctionView, e: Event, o: Offer, round: int)
    requires e.eventType == OfferReceived
    requires "offer" in e.data && e.data["offer"] == JObj(OfferToDict(o))
    requires "round" in e.data && e.data["round"] == JNum(round)
    ensures FoldAuction(a, e, e.timestamp) == WithOffer(Touched(a, e.timestamp), o, Some(round), e.timestamp)
  {
    CarriedOfferReads(e, o, e.timestamp);
  }

  /** The status a completion event leaves. */
  function CompletedStatus(status: Status): Status {
    if status == Completed || status == Cancelled then status else Failed
  }

  lemma CompletionFold(a: AuctionView, e: Event, status: Status)
    requires e.eventType == CompletionType(status)
    ensures FoldAuction(a, e, e.timestamp) == Touched(a, e.timestamp).(base := Touched(a, e.timestamp).base.(status := CompletedStatus(status)))
  {
  }

  lemma DiscoveryReceivedFold(a: AuctionView, e: Event, d: Json)
    requires e.eventType == DiscoveryReceived && "discovery_data" in e.data && e.data["discovery_data"] == d
    ensures FoldAuction(a, e, e.timestamp)
      == Touched(a, e.timestamp).(discoveryMessages := a.discoveryMessages + [DiscoveryEntry(d, e.timestamp, e.contextId)])
  {
  }

  // ---------------------------------------------------------------------
  // Offers collected during a round

  /** Nothing but offers and the update time changed. */
  ghost predicate Unmoved(a: AuctionView, a': AuctionView) {
    && a'.currentRound == a.currentRound && a'.totalRounds == a.totalRounds && a'.roundDuration == a.roundDuration
    && a'.base.status == a.base.status && a'.base.counterparties == a.base.counterparties
    && a'.base.sessionId == a.base.sessionId && a'.base.createdAt == a.base.createdAt
  }

  /** `a'` is `a` with the offers `g` recorded against the current round. */
  ghost predicate Collected(a: AuctionView, a': AuctionView, g: seq<Offer>) {
    && Unmoved(a, a')
    && a'.allOffers == a.allOffers + g
    && forall q :: Bucket(a', q) == Bucket(a, q) + (if q == a.currentRound then g else [])
  }

  lemma CollectedSelf(a: AuctionView)
    ensures Collected(a, a, [])
  {
  }

  lemma NothingCollected(a: AuctionView, now: Timestamp)
    ensures Collected(a, Touched(a, now), [])
  {
  }

  lemma OfferCollected(a: AuctionView, o: Offer, now: Timestamp)
    ensures Collected(a, WithOffer(Touched(a, now), o, Some(a.currentRound), now), [o])
  {
    var a' := WithOffer(Touched(a, now), o, Some(a.currentRound), now);
    forall q
      ensures Bucket(a', q) == Bucket(a, q) + (if q == a.currentRound then [o] else [])
    {
      assert a'.offersByRound.entries == a.offersByRound.entries[a.currentRound := Bucket(a, a.currentRound) + [o]];
    }
  }

  lemma CollectedTrans(a: AuctionView, b: AuctionView, c: AuctionView, g: seq<Offer>, h: seq<Offer>)
    requires Collected(a, b, g) && Collected(b, c, h)
    ensures Collected(a, c, g + h)
  {
    AppendAssoc(a.allOffers, g, h);
    forall q
      ensures Bucket(c, q) == Bucket(a, q) + (if q == a.currentRound then g + h else [])
    {
      if q == a.currentRound {
        assert Bucket(b, q) == Bucket(a, q) + g;
        assert Bucket(c, q) == Bucket(b, q) + h;
        AppendAssoc(Bucket(a, q), g, h);
      } else {
        assert Bucket(b, q) == Bucket(a, q) + [];
        assert Bucket(c, q) == Bucket(b, q) + [];
      }
    }
  }

  /** Collecting while the update time is refreshed. */
  lemma CollectedTouched(a: AuctionView, b: AuctionView, g: seq<Offer>, now: Timestamp)
    requires Collected(a, b, g)
    ensures Collected(a, Touched(b, now), g)
  {
  }

  /** What `_handle_offer` makes of a message: no offer data, an offer, or the exception `Offer.from_dict` raises. */
  function ReadReply(m: ParsedMessage, now: Timestamp): (rr: Result<Option<Offer>>)
    ensures rr == Success(None) <==> !Truthy(m.offerData)
    ensures rr.Failure? ==> OfferFromJson(m.offerData, now).Failure?
    ensures rr.Success? && rr.value.Some? ==> OfferFromJson(m.offerData, now) == Success(rr.value.value)
  {
    if !Truthy(m.offerData) then Success(None)
    else match OfferFromJson(m.offerData, now)
      case Failure(e) => Failure(e)
      case Success(o) => Success(Some(o))
  }

  /** The offer a read records, if any. */
  function Got(rr: Result<Option<Offer>>): seq<Offer> {
    if rr.Success? && rr.value.Some? then [rr.value.value] else []
  }

  /** An offer message whose offer cannot be read: `_handle_offer` raises and that seller's task ends. */
  predicate Stops(m: ParsedMessage, now: Timestamp) {
    m.messageType == OfferMsg && ReadReply(m, now).Failure?
  }

  /** The offers one message adds: only offer messages reach `_handle_offer`. */
  function Taken(m: ParsedMessage, now: Timestamp): (g: seq<Offer>)
    ensures |g| <= 1
    ensures Stops(m, now) ==> g == []
  {
    if m.messageType == OfferMsg then Got(ReadReply(m, now)) else []
  }

  /**
   * The offers `_handle_offer` records from one reply, in order: offer
   * messages with offer data, up to the first whose offer cannot be read,
   * which raises and ends that counterparty's task.
   */
  function Harvested(msgs: seq<ParsedMessage>, now: Timestamp): seq<Offer> {
    if msgs == [] || Stops(msgs[0], now) then []
    else Taken(msgs[0], now) + Harvested(msgs[1..], now)
  }

  /** Reading a reply one message at a time: `got` holds what the first `j` messages gave. */
  lemma HarvestedNext(msgs: seq<ParsedMessage>, j: nat, got: seq<Offer>, now: Timestamp)
    requires j < |msgs| && got + Harvested(msgs[j..], now) == Harvested(msgs, now)
    ensures Stops(msgs[j], now) ==> got == Harvested(msgs, now)
    ensures !Stops(msgs[j], now) ==> (got + Taken(msgs[j], now)) + Harvested(msgs[j + 1..], now) == Harvested(msgs, now)
  {
    assert msgs[j..][0] == msgs[j] && msgs[j..][1..] == msgs[j + 1..];
    if !Stops(msgs[j], now) {
      assert got + Harvested(msgs[j..], now) == got + (Taken(msgs[j], now) + Harvested(msgs[j + 1..], now));
    }
  }

  lemma HarvestedEnds(msgs: seq<ParsedMessage>, got: seq<Offer>, now: Timestamp)
    ensures [] + Harvested(msgs[0..], now) == Harvested(msgs, now)
    ensures got + Harvested(msgs[|msgs|..], now) == Harvested(msgs, now) ==> got == Harvested(msgs, now)
  {
    assert msgs[0..] == msgs;
    assert msgs[|msgs|..] == [];
    assert got + [] == got;
  }

  /** The offers one counterparty's task records: none when the send raised. */
  function Replied(reply: Result<seq<ParsedMessage>>, now: Timestamp): seq<Offer> {
    if reply.Success? then Harvested(reply.value, now) else []
  }

  /** The offers recorded from every counterparty's reply, in the order the replies are handled. */
  function Gathered(replies: seq<Result<seq<ParsedMessage>>>, now: Timestamp): seq<Offer> {
    if replies == [] then [] else Replied(replies[0], now) + Gathered(replies[1..], now)
  }

  /** Handling the replies one at a time: `got` holds what the first `i` gave. */
  lemma GatheredNext(replies: seq<Result<seq<ParsedMessage>>>, i: nat, got: seq<Offer>, now: Timestamp)
    requires i < |replies| && got + Gathered(replies[i..], now) == Gathered(replies, now)
    ensures (got + Replied(replies[i], now)) + Gathered(replies[i + 1..], now) == Gathered(replies, now)
  {
    assert replies[i..][0] == replies[i] && replies[i..][1..] == replies[i + 1..];
    assert got + Gathered(replies[i..], now) == got + (Replied(replies[i], now) + Gathered(replies[i + 1..], now));
  }

  lemma GatheredEnds(replies: seq<Result<seq<ParsedMessage>>>, got: seq<Offer>, now: Timestamp)
    ensures [] + Gathered(replies[0..], now) == Gathered(replies, now)
    ensures got + Gathered(replies[|replies|..], now) == Gathered(replies, now) ==> got == Gathered(replies, now)
  {
    assert replies[0..] == replies;
    assert replies[|replies|..] == [];
    assert got + [] == got;
  }

  /**
   * Every offer recorded from a reply came in an offer message of it,
   * with that offer's own dictionary.
   */
  lemma {:induction false} HarvestedFromReplies(msgs: seq<ParsedMessage>, now: Timestamp)
    ensures |Harvested(msgs, now)| <= |msgs|
    ensures forall o :: o in Harvested(msgs, now) ==>
      exists i :: 0 <= i < |msgs| && msgs[i].messageType == OfferMsg && OfferFromJson(msgs[i].offerData, now) == Success(o)
  {
    if msgs != [] {
      HarvestedFromReplies(msgs[1..], now);
      forall o | o in Harvested(msgs, now)
        ensures exists i :: 0 <= i < |msgs| && msgs[i].messageType == OfferMsg && OfferFromJson(msgs[i].offerData, now) == Success(o)
      {
        if o in Harvested(msgs[1..], now) {
          var i :| 0 <= i < |msgs[1..]| && msgs[1..][i].messageType == OfferMsg
                   && OfferFromJson(msgs[1..][i].offerData, now) == Success(o);
          assert msgs[i + 1] == msgs[1..][i];
        }
      }
    }
  }

  /** The round numbers that the events of type `t` in `log` carry, in order. */
  ghost function RoundNumbers(log: seq<Event>, t: EventType): seq<Json> {
    if log == [] then []
    else RoundNumbers(log[..|log| - 1], t)
         + (if log[|log| - 1].eventType == t then [Get(log[|log| - 1].data, "round_number")] else [])
  }

  lemma {:induction false} RoundNumbersAppend(a: seq<Event>, b: seq<Event>, t: EventType)
    ensures RoundNumbers(a + b, t) == RoundNumbers(a, t) + RoundNumbers(b, t)
  {
    if b != [] {
      assert (a + b)[..|a + b| - 1] == a + b[..|b| - 1];
      RoundNumbersAppend(a, b[..|b| - 1], t);
    } else {
      assert a + b == a;
    }
  }

  /** A log none of whose events has type `t` carries no round numbers for it. */
  lemma {:induction false} RoundNumbersNone(log: seq<Event>, t: EventType)
    requires forall i :: 0 <= i < |log| ==> log[i].eventType != t
    ensures RoundNumbers(log, t) == []
  {
    if log != [] {
      RoundNumbersNone(log[..|log| - 1], t);
    }
  }

  /** A round's events: nothing between its start and its end starts or ends a round. */
  lemma RoundNumbersOfRound(opening: Event, middle: seq<Event>, closing: Event)
    requires opening.eventType == BiddingRoundStarted && closing.eventType == BiddingRoundEnded
    requires forall i :: 0 <= i < |middle| ==> middle[i].eventType != BiddingRoundStarted && middle[i].eventType != BiddingRoundEnded
    ensures RoundNumbers([opening] + middle + [closing], BiddingRoundStarted) == [Get(opening.data, "round_number")]
    ensures RoundNumbers([opening] + middle + [closing], BiddingRoundEnded) == [Get(closing.data, "round_number")]
  {
    RoundNumbersEnds(opening, middle, closing, BiddingRoundStarted);
    RoundNumbersEnds(opening, middle, closing, BiddingRoundEnded);
    RoundNumbersOne(opening, BiddingRoundStarted);
    RoundNumbersOne(closing, BiddingRoundStarted);
    RoundNumbersOne(opening, BiddingRoundEnded);
    RoundNumbersOne(closing, BiddingRoundEnded);
  }

  /** A single event carries its round number exactly when it has type `t`. */
  lemma RoundNumbersOne(e: Event, t: EventType)
    ensures RoundNumbers([e], t) == if e.eventType == t then [Get(e.data, "round_number")] else []
  {
    assert [e][..0] == [];
  }

  /** An event of another type adds no round number for `t`. */
  lemma RoundNumbersSkip(log: seq<Event>, e: Event, t: EventType)
    requires e.eventType != t
    ensures RoundNumbers(log + [e], t) == RoundNumbers(log, t)
  {
    assert (log + [e])[..|log|] == log;
  }

  /** A round opened and closed with the payloads the coordinators log carries its number once at each end. */
  lemma RoundOfNumber(opening: Event, middle: seq<Event>, closing: Event, r: int, duration: int, count: nat, em: Emitter)
    requires opening.eventType == BiddingRoundStarted && opening.data == RoundOpenData(r, duration, em)
    requires closing.eventType == BiddingRoundEnded && closing.data == RoundCloseData(r, count, em)
    requires forall i :: 0 <= i < |middle| ==> middle[i].eventType != BiddingRoundStarted && middle[i].eventType != BiddingRoundEnded
    ensures RoundNumbers([opening] + middle + [closing], BiddingRoundStarted) == [JNum(r)]
    ensures RoundNumbers([opening] + middle + [closing], BiddingRoundEnded) == [JNum(r)]
  {
    assert Get(opening.data, "round_number") == JNum(r);
    assert Get(closing.data, "round_number") == JNum(r);
    RoundNumbersOfRound(opening, middle, closing);
  }

  lemma RoundNumbersEnds(opening: Event, middle: seq<Event>, closing: Event, t: EventType)
    requires forall i :: 0 <= i < |middle| ==> middle[i].eventType != t
    ensures RoundNumbers([opening] + middle + [closing], t)
            == RoundNumbers([opening], t) + RoundNumbers([closing], t)
  {
    RoundNumbersNone(middle, t);
    RoundNumbersAppend([opening], middle, t);
    RoundNumbersAppend([opening] + middle, [closing], t);
  }

  /** `[1, 2, …, n]`, as carried in events. */
  function Numbered(n: nat): (s: seq<Json>)
    ensures |s| == n && forall i :: 0 <= i < n ==> s[i] == JNum(i + 1)
  {
    seq(n, i requires 0 <= i => JNum(i + 1))
  }

  lemma NumberedNext(n: nat)
    ensures Numbered(n) + [JNum(n + 1)] == Numbered(n + 1)
  {
  }

  /** Rounds 1 to `n` followed by round `n + 1` make rounds 1 to `n + 1`, at both ends. */
  lemma NumberedMore(rest: seq<Event>, x: seq<Event>, n: nat)
    requires RoundNumbers(rest, BiddingRoundStarted) == Numbered(n) && RoundNumbers(rest, BiddingRoundEnded) == Numbered(n)
    requires RoundNumbers(x, BiddingRoundStarted) == [JNum(n + 1)] && RoundNumbers(x, BiddingRoundEnded) == [JNum(n + 1)]
    ensures RoundNumbers(rest + x, BiddingRoundStarted) == Numbered(n + 1)
    ensures RoundNumbers(rest + x, BiddingRoundEnded) == Numbered(n + 1)
  {
    RoundNumbersAppend(rest, x, BiddingRoundStarted);
    RoundNumbersAppend(rest, x, BiddingRoundEnded);
    NumberedNext(n);
  }

  /** The completion event appended after the rounds adds no round number. */
  lemma NumberedThenCompleted(log0: seq<Event>, log1: seq<Event>, log: seq<Event>, n: nat)
    requires |log1| >= |log0| && log1[..|log0|] == log0
    requires RoundNumbers(log1[|log0|..], BiddingRoundStarted) == Numbered(n)
    requires RoundNumbers(log1[|log0|..], BiddingRoundEnded) == Numbered(n)
    requires |log| == |log1| + 1 && log[..|log1|] == log1 && log[|log1|].eventType == SessionCompleted
    ensures log[..|log0|] == log0
    ensures RoundNumbers(log[|log0|..], BiddingRoundStarted) == Numbered(n)
    ensures RoundNumbers(log[|log0|..], BiddingRoundEnded) == Numbered(n)
  {
    assert log[..|log0|] == log1[..|log0|];
    assert log[|log0|..] == log1[|log0|..] + [log[|log1|]];
    RoundNumbersSkip(log1[|log0|..], log[|log1|], BiddingRoundStarted);
    RoundNumbersSkip(log1[|log0|..], log[|log1|], BiddingRoundEnded);
  }
}
