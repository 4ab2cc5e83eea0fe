/**
 * What the coordinators share: the actions an agent can choose, the
 * agent and the messenger as functions the coordinators consult, the
 * result record, and facts about the events they append to a log.
 */
module Coordination {
  import opened Wrappers
  import opened Json
  import opened Types
  import opened Events
  import opened SessionStates
  import opened MessageParsing

  /** Offer prices are validated as strictly positive. */
  type Price = p: int | p > 0 witness 1

  /**
   * The three structured actions, and any other object an agent may
   * return. A discovery action's `message` is required; `text` holds it.
   */
  datatype AgentAction =
    | SendOfferAction(price: Price, message: Option<string>, metadata: Option<Object>)
    | AcceptOfferAction(offerId: string, message: Option<string>)
    | SendDiscoveryAction(text: string, discoveryData: Option<Object>)
    | UnknownAction

  /** What `decide_next_action` does: return an action or raise. */
  datatype AgentReply = Decided(action: AgentAction) | AgentRaised(error: string)

  /**
   * An agent: any decision rule over the session's current state. The
   * first argument numbers the consultation, so the same agent may
   * answer differently on each call.
   */
  type Agent = (nat, SessionView) -> AgentReply

  /** What a coordinator sends to a counterparty. */
  datatype Outbound =
    | OfferOut(offer: Offer)
    | AcceptOut(offerId: string, message: Option<string>)
    | DiscoveryOut(data: Object, contextId: Option<string>)

  /**
   * The session messenger and the message parser together: the reply to
   * one send, as parsed messages, or the exception the transport or the
   * parser raised. The first argument numbers the send.
   */
  type Messenger = (nat, Outbound) -> Result<seq<ParsedMessage>>

  datatype PriceRange = PriceRange(min: int, max: int, avg: real)

  /** The `data` dictionary of a coordinator result, one shape per coordinator. */
  datatype ResultData =
    | NoData
    | NegotiationData(rounds: int, lastOffer: Option<Offer>, startedAt: Timestamp, completedAt: Timestamp,
                      finalPrice: Option<int>, agreed: bool)
    | AuctionData(rounds: int, totalOffers: nat, allOffers: seq<Offer>, startedAt: Timestamp,
                  completedAt: Timestamp, priceRange: Option<PriceRange>, success: bool)

  /** `CoordinatorResult`. */
  datatype CoordinatorResult = CoordinatorResult(
    status: Status,
    sessionId: string,
    sessionType: SessionType,
    data: ResultData,
    message: string)

  /** The result every coordinator returns when the session is missing. */
  function NotFound(sid: string, t: SessionType, message: string): (r: CoordinatorResult)
    ensures r.status == Failed && r.sessionId == sid && r.sessionType == t && r.data == NoData
  {
    CoordinatorResult(Failed, sid, t, NoData, message)
  }

  /** `message.context_id` handed to `emit_event`: a string, or None for anything else. */
  function ContextOf(j: Json): (r: Option<string>)
    ensures r.Some? <==> j.JStr?
  {
    if j.JStr? then Some(j.s) else None
  }

  /** `action.discovery_data or {}`, with `message` added when the action's message is non-empty. */
  function DiscoveryDataOf(text: string, data: Option<Object>): (dd: Object)
    ensures text != "" ==> "message" in dd && dd["message"] == JStr(text)
    ensures forall k :: k in dd <==> (k == "message" && text != "") || (data.Some? && k in data.value)
    ensures forall k | k in dd && (k != "message" || text == "") :: dd[k] == data.value[k]
  {
    var base := if data.Some? then data.value else map[];
    if text != "" then base["message" := JStr(text)] else base
  }

  // ---------------------------------------------------------------------
  // Appending to a log

  /** `log` is `before` followed by events of exactly the types `ts`, in order. */
  ghost predicate Appended(before: seq<Event>, log: seq<Event>, ts: seq<EventType>) {
    |log| == |before| + |ts| && log[..|before|] == before && TypesOf(log[|before|..]) == ts
  }

  lemma AppendedOne(before: seq<Event>, e: Event)
    ensures Appended(before, before + [e], [e.eventType])
  {
    assert (before + [e])[..|before|] == before;
    assert (before + [e])[|before|..] == [e];
  }

  lemma AppendedNothing(log: seq<Event>)
    ensures Appended(log, log, [])
  {
    assert log[|log|..] == [];
  }

  /** Appending twice appends the concatenation. */
  lemma AppendedTrans(a: seq<Event>, b: seq<Event>, c: seq<Event>, s: seq<EventType>, t: seq<EventType>)
    requires Appended(a, b, s) && Appended(b, c, t)
    ensures Appended(a, c, s + t)
  {
    assert c[..|a|] == b[..|a|];
    assert c[|a|..] == b[|a|..] + c[|b|..];
    TypesOfAppend(b[|a|..], c[|b|..]);
  }

  /** Appending two runs of events one after the other appends their concatenation. */
  lemma AppendAssoc<T>(a: seq<T>, b: seq<T>, c: seq<T>)
    ensures (a + b) + c == a + (b + c)
  {
  }

  /** A log is its first `n` events followed by the rest. */
  lemma SplitAt<T>(s: seq<T>, n: nat)
    requires n <= |s|
    ensures s == s[..n] + s[n..]
  {
  }

  /** A log extending `log1`, itself `log0` and one event, extends `log0` with that event first. */
  lemma StartedThenRounds(log0: seq<Event>, log1: seq<Event>, log: seq<Event>)
    requires |log1| == |log0| + 1 && log1[..|log0|] == log0
    requires |log| >= |log1| && log[..|log1|] == log1
    ensures log[..|log0|] == log0 && log[|log0|] == log1[|log0|] && log[|log0| + 1..] == log[|log1|..]
  {
    assert log[..|log0|] == log1[..|log0|];
    assert log[|log0|] == log[..|log1|][|log0|];
  }

  /** The events appended to a log. */
  lemma AppendedTail(before: seq<Event>, log: seq<Event>, ts: seq<EventType>, i: nat)
    requires Appended(before, log, ts) && i < |ts|
    ensures log[|before| + i].eventType == ts[i]
  {
    assert log[|before|..][i] == log[|before| + i];
  }

  // ---------------------------------------------------------------------
  // Events the coordinators emit do not make the fold raise

  /** An event carrying an offer's own dictionary reads back as that offer. */
  lemma CarriedOfferReads(e: Event, o: Offer, now: Timestamp)
    requires "offer" in e.data && e.data["offer"] == JObj(OfferToDict(o))
    ensures ReadOffer(e, now) == Read(o)
  {
    OfferDictTruthy(o);
    OfferRoundTrip(o, now);
  }

  /**
   * Only STATE_UPDATED and the offer events can make `apply_event`
   * raise, and an offer event that carries a serialised offer does not.
   */
  lemma EmittedEventsDoNotRaise(sv: SessionView, e: Event, now: Timestamp, o: Offer)
    requires e.eventType != StateUpdated
    requires e.eventType == OfferSent || e.eventType == OfferReceived ==>
      "offer" in e.data && e.data["offer"] == JObj(OfferToDict(o))
    ensures FoldError(sv, e, now).None?
  {
    if e.eventType == OfferSent || e.eventType == OfferReceived {
      CarriedOfferReads(e, o, now);
    }
  }

  // ---------------------------------------------------------------------
  // Price summaries

  function PricesOf(offers: seq<Offer>): (ps: seq<int>)
    ensures |ps| == |offers| && forall i :: 0 <= i < |offers| ==> ps[i] == offers[i].price
  {
    if offers == [] then [] else [offers[0].price] + PricesOf(offers[1..])
  }

  function Sum(ps: seq<int>): int {
    if ps == [] then 0 else ps[0] + Sum(ps[1..])
  }

  function Min(ps: seq<int>): (m: int)
    requires ps != []
    ensures m in ps && forall p :: p in ps ==> m <= p
  {
    if |ps| == 1 then ps[0]
    else
      var rest := Min(ps[1..]);
      assert forall p :: p in ps ==> p == ps[0] || p in ps[1..];
      if ps[0] <= rest then ps[0] else rest
  }

  function Max(ps: seq<int>): (m: int)
    requires ps != []
    ensures m in ps && forall p :: p in ps ==> p <= m
  {
    if |ps| == 1 then ps[0]
    else
      var rest := Max(ps[1..]);
      assert forall p :: p in ps ==> p == ps[0] || p in ps[1..];
      if ps[0] >= rest then ps[0] else rest
  }

  /** `{min, max, avg}` of some prices; Python's `/` gives a float, the model a real. */
  function RangeOf(ps: seq<int>): PriceRange
    requires ps != []
  {
    PriceRange(Min(ps), Max(ps), Sum(ps) as real / |ps| as real)
  }

  /** The sum of prices lies between their count times the least and the greatest. */
  lemma {:induction false} SumBounds(ps: seq<int>, lo: int, hi: int)
    requires forall p :: p in ps ==> lo <= p <= hi
    ensures |ps| * lo <= Sum(ps) <= |ps| * hi
  {
    if ps != [] {
      assert forall p :: p in ps[1..] ==> p in ps;
      SumBounds(ps[1..], lo, hi);
      var k := |ps[1..]|;
      assert lo <= ps[0] <= hi by { assert ps[0] in ps; }
      assert (k + 1) * lo == k * lo + lo && (k + 1) * hi == k * hi + hi;
    }
  }

  /** The range's bounds are prices of the list and enclose every price and the average. */
  lemma RangeBounds(ps: seq<int>)
    requires ps != []
    ensures var r := RangeOf(ps);
      && r.min in ps && r.max in ps
      && (forall p :: p in ps ==> r.min <= p <= r.max)
      && r.min as real <= r.avg <= r.max as real
  {
    var lo, hi := Min(ps), Max(ps);
    SumBounds(ps, lo, hi);
    AverageBetween(Sum(ps), |ps|, lo, hi);
  }

  /** An integer mean lies between the bounds of its terms. */
  lemma AverageBetween(s: int, n: nat, lo: int, hi: int)
    requires n > 0 && n * lo <= s <= n * hi
    ensures lo as real <= s as real / n as real <= hi as real
  {
    var avg := s as real / n as real;
    assert avg * n as real == s as real;
    assert (n * lo) as real == n as real * lo as real;
    assert (n * hi) as real == n as real * hi as real;
  }
}
