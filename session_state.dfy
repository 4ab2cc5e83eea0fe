/**
 * Session state: the mutable working memory of one session, changed by
 * folding events into it. A base record holds what every session has;
 * the negotiation and reverse-auction records extend it. Each class has
 * a `View()` snapshot, and each `ApplyEvent` is specified by a pure fold
 * over those snapshots.
 */
module SessionStates {
  import opened Wrappers
  import opened Json
  import opened Dicts
  import opened Types
  import opened Events

  datatype Status = Initialized | Active | Completed | Cancelled | Failed {
    function Name(): string {
      match this
      case Initialized => "initialized"
      case Active => "active"
      case Completed => "completed"
      case Cancelled => "cancelled"
      case Failed => "failed"
    }

    predicate IsTerminal() {
      Completed? || Cancelled? || Failed?
    }
  }

  function StatusFromName(s: string): (r: Option<Status>)
    ensures r.Some? <==> s in {"initialized", "active", "completed", "cancelled", "failed"}
    ensures r.Some? ==> r.value.Name() == s
  {
    if s == "initialized" then Some(Initialized)
    else if s == "active" then Some(Active)
    else if s == "completed" then Some(Completed)
    else if s == "cancelled" then Some(Cancelled)
    else if s == "failed" then Some(Failed)
    else None
  }

  /** An entry of the counterparty map: `{endpoint[, name]}`. */
  datatype Counterparty = Counterparty(endpoint: string, name: Option<string>)

  /** An entry of `discovery_messages`. */
  datatype DiscoveryEntry = DiscoveryEntry(data: Json, timestamp: Timestamp, contextId: Option<string>)

  datatype BaseView = BaseView(
    sessionId: string,
    sessionType: SessionType,
    role: AgentRole,
    item: Item,
    contextId: Option<string>,
    status: Status,
    createdAt: Timestamp,
    updatedAt: Timestamp,
    counterparties: Dict<string, Counterparty>,
    metadata: Object)
  {
    /** `get_all_contexts`: the primary context when it is set and non-empty, then the counterparty contexts. */
    function AllContexts(): (r: seq<string>)
      ensures forall c :: c in r <==> c in counterparties.order || (contextId == Some(c) && c != "")
      ensures contextId.Some? && contextId.value != "" ==> |r| > 0 && r[0] == contextId.value
      ensures |r| == |counterparties.order| + (if contextId.Some? && contextId.value != "" then 1 else 0)
    {
      (if contextId.Some? && contextId.value != "" then [contextId.value] else []) + counterparties.Keys()
    }
  }

  datatype NegotiationView = NegotiationView(
    base: BaseView,
    currentRound: int,
    maxRounds: Option<int>,
    timeoutSeconds: Option<int>,
    timeoutAt: Option<Timestamp>,
    lastOfferSent: Option<Offer>,
    lastOfferReceived: Option<Offer>,
    offersSent: Dict<string, Offer>,
    offersReceived: Dict<string, Offer>,
    discoveryMessages: seq<DiscoveryEntry>)

  datatype AuctionView = AuctionView(
    base: BaseView,
    currentRound: int,
    totalRounds: int,
    roundDuration: int,
    roundStartTime: Option<Timestamp>,
    expectedParticipants: int,
    actualParticipants: int,
    offersByRound: Dict<int, seq<Offer>>,
    allOffers: seq<Offer>,
    discoveryMessages: seq<DiscoveryEntry>)

  datatype SessionView = NegotiationSession(n: NegotiationView) | AuctionSession(a: AuctionView) {
    function Base(): BaseView {
      match this
      case NegotiationSession(n) => n.base
      case AuctionSession(a) => a.base
    }
  }

  // ---------------------------------------------------------------------
  // The base fold

  /** The counterparty a COUNTERPARTY_JOINED payload adds, if it names both an endpoint and a context. */
  function JoinedCounterparty(data: Object): Option<(string, Counterparty)> {
    var endpoint, ctx, name := Get(data, "endpoint"), Get(data, "context_id"), Get(data, "name");
    if endpoint.JStr? && endpoint.s != "" && ctx.JStr? && ctx.s != "" then
      Some((ctx.s, Counterparty(endpoint.s, if name.JStr? && name.s != "" then Some(name.s) else None)))
    else None
  }

  function UpdatesOf(e: Event): Json {
    GetOr(e.data, "updates", JObj(map[]))
  }

  const UpdatesError := "AttributeError: updates has no items()"

  /** STATE_UPDATED whose `updates` is not a dict: `.items()` raises. */
  predicate BaseRaises(e: Event) {
    e.eventType == StateUpdated && !UpdatesOf(e).JObj?
  }

  function UpdatedStatus(b: BaseView, u: Object): Status {
    if "status" in u && u["status"].JStr? && StatusFromName(u["status"].s).Some? then
      StatusFromName(u["status"].s).value
    else b.status
  }

  function UpdatedContext(b: BaseView, u: Object): Option<string> {
    if "context_id" in u && u["context_id"].JStr? then Some(u["context_id"].s)
    else if "context_id" in u && u["context_id"].JNull? then None
    else b.contextId
  }

  function UpdatedMetadata(b: BaseView, u: Object): Object {
    if "metadata" in u && u["metadata"].JObj? then u["metadata"].fields else b.metadata
  }

  /** The assignments STATE_UPDATED makes to the fields the model lets it name. */
  function ApplyUpdates(b: BaseView, u: Object): BaseView {
    b.(status := UpdatedStatus(b, u), contextId := UpdatedContext(b, u), metadata := UpdatedMetadata(b, u))
  }

  /** `SessionState.apply_event`. */
  function FoldBase(b: BaseView, e: Event): BaseView {
    var b1 := b.(updatedAt := e.timestamp);
    match e.eventType
    case SessionStarted => b1.(status := Active)
    case SessionCompleted => b1.(status := Completed)
    case SessionCancelled => b1.(status := Cancelled)
    case SessionFailed => b1.(status := Failed)
    case CounterpartyJoined =>
      (match JoinedCounterparty(e.data)
       case Some((c, cp)) => b1.(counterparties := b1.counterparties.Put(c, cp))
       case None => b1)
    case StateUpdated => if UpdatesOf(e).JObj? then ApplyUpdates(b1, UpdatesOf(e).fields) else b1
    case _ => b1
  }

  // ---------------------------------------------------------------------
  // The negotiation and reverse-auction folds

  datatype OfferRead = NoOffer | Read(offer: Offer) | Malformed(error: string)

  /** `offer_data = data.get("offer")`; `if offer_data: Offer.from_dict(offer_data)`. */
  function ReadOffer(e: Event, now: Timestamp): OfferRead {
    var j := Get(e.data, "offer");
    if !Truthy(j) then NoOffer
    else match OfferFromJson(j, now)
      case Success(o) => Read(o)
      case Failure(err) => Malformed(err)
  }

  function DiscoveryOf(e: Event): DiscoveryEntry {
    DiscoveryEntry(GetOr(e.data, "discovery_data", JObj(map[])), e.timestamp, e.contextId)
  }

  predicate NegotiationRaises(e: Event, now: Timestamp) {
    BaseRaises(e) || ((e.eventType == OfferSent || e.eventType == OfferReceived) && ReadOffer(e, now).Malformed?)
  }

  /** `NegotiationState.apply_event`: the base fold, then the negotiation events. */
  function FoldNegotiation(v: NegotiationView, e: Event, now: Timestamp): NegotiationView {
    var v1 := v.(base := FoldBase(v.base, e));
    match e.eventType
    case NegotiationRoundStarted => v1.(currentRound := NumOr(e.data, "round_number", v.currentRound + 1))
    case OfferSent =>
      (match ReadOffer(e, now)
       case Read(o) => v1.(offersSent := v.offersSent.Put(o.offerId, o), lastOfferSent := Some(o))
       case _ => v1)
    case OfferReceived =>
      (match ReadOffer(e, now)
       case Read(o) => v1.(offersReceived := v.offersReceived.Put(o.offerId, o), lastOfferReceived := Some(o))
       case _ => v1)
    case OfferAccepted => v1.(base := v1.base.(status := Completed))
    case DiscoveryReceived => v1.(discoveryMessages := v.discoveryMessages + [DiscoveryOf(e)])
    case _ => v1
  }

  /** `data.get("round")` as `add_offer` receives it: None means the current round. */
  function RoundArg(data: Object): Option<int> {
    match Get(data, "round")
    case JNum(n) => Some(n)
    case _ => None
  }

  /** `offers_by_round.get(r, [])`. */
  function Bucket(v: AuctionView, r: int): seq<Offer> {
    match v.offersByRound.Get(r)
    case Some(b) => b
    case None => []
  }

  /** `ReverseAuctionState.add_offer` on snapshots. */
  function WithOffer(v: AuctionView, o: Offer, round: Option<int>, now: Timestamp): AuctionView {
    var r := round.GetOr(v.currentRound);
    v.(allOffers := v.allOffers + [o],
       offersByRound := v.offersByRound.Put(r, Bucket(v, r) + [o]),
       base := v.base.(updatedAt := now))
  }

  predicate AuctionRaises(e: Event, now: Timestamp) {
    BaseRaises(e) || (e.eventType == OfferReceived && ReadOffer(e, now).Malformed?)
  }

  /** `ReverseAuctionState.apply_event`: the base fold, then the auction events. */
  function FoldAuction(v: AuctionView, e: Event, now: Timestamp): AuctionView {
    var v1 := v.(base := FoldBase(v.base, e));
    match e.eventType
    case ReverseAuctionStarted => v1.(base := v1.base.(status := Active))
    case BiddingRoundStarted =>
      var r := NumOr(e.data, "round_number", v.currentRound + 1);
      v1.(currentRound := r, roundStartTime := Some(e.timestamp),
          offersByRound := if r in v.offersByRound.entries then v.offersByRound else v.offersByRound.Put(r, []))
    case OfferReceived =>
      (match ReadOffer(e, now)
       case Read(o) => WithOffer(v1, o, RoundArg(e.data), now)
       case _ => v1)
    case DiscoveryReceived => v1.(discoveryMessages := v.discoveryMessages + [DiscoveryOf(e)])
    case _ => v1
  }

  function Fold(sv: SessionView, e: Event, now: Timestamp): SessionView {
    match sv
    case NegotiationSession(n) => NegotiationSession(FoldNegotiation(n, e, now))
    case AuctionSession(a) => AuctionSession(FoldAuction(a, e, now))
  }

  predicate Raises(sv: SessionView, e: Event, now: Timestamp) {
    match sv
    case NegotiationSession(_) => NegotiationRaises(e, now)
    case AuctionSession(_) => AuctionRaises(e, now)
  }

  /** The exception `apply_event` raises, if any. */
  function FoldError(sv: SessionView, e: Event, now: Timestamp): (r: Option<string>)
    ensures r.Some? <==> Raises(sv, e, now)
  {
    if BaseRaises(e) then Some(UpdatesError)
    else if Raises(sv, e, now) then Some(ReadOffer(e, now).error)
    else None
  }

  // ---------------------------------------------------------------------
  // Invariants every reachable state keeps

  /** Total length of the per-round buckets, in key order. */
  function SumLengths(ks: seq<int>, m: map<int, seq<Offer>>): nat
    requires forall i :: 0 <= i < |ks| ==> ks[i] in m
  {
    if ks == [] then 0 else |m[ks[0]]| + SumLengths(ks[1..], m)
  }

  function BucketTotal(d: Dict<int, seq<Offer>>): nat
    requires d.Valid()
  {
    SumLengths(d.order, d.entries)
  }

  ghost predicate LastOffersRecorded(n: NegotiationView) {
    && (n.lastOfferSent.Some? ==> n.offersSent.Get(n.lastOfferSent.value.offerId) == Some(n.lastOfferSent.value))
    && (n.lastOfferReceived.Some? ==> n.offersReceived.Get(n.lastOfferReceived.value.offerId) == Some(n.lastOfferReceived.value))
  }

  /**
   * What every state built by folding events keeps: dicts are well
   * formed, the last offers are in their maps, and the round buckets
   * together hold exactly the offers of `all_offers`.
   */
  ghost predicate WellFormed(sv: SessionView) {
    sv.Base().counterparties.Valid()
    && match sv
       case NegotiationSession(n) => n.offersSent.Valid() && n.offersReceived.Valid() && LastOffersRecorded(n)
       case AuctionSession(a) => a.offersByRound.Valid() && BucketTotal(a.offersByRound) == |a.allOffers|
  }

  lemma {:induction false} SumLengthsFrame(ks: seq<int>, m: map<int, seq<Offer>>, k: int, s: seq<Offer>)
    requires forall i :: 0 <= i < |ks| ==> ks[i] in m
    requires k !in ks
    ensures SumLengths(ks, m[k := s]) == SumLengths(ks, m)
  {
    if ks != [] {
      SumLengthsFrame(ks[1..], m, k, s);
    }
  }

  lemma {:induction false} SumLengthsAppend(ks: seq<int>, m: map<int, seq<Offer>>, k: int)
    requires forall i :: 0 <= i < |ks| ==> ks[i] in m
    requires k in m
    ensures SumLengths(ks + [k], m) == SumLengths(ks, m) + |m[k]|
  {
    if ks == [] {
      assert [k][1..] == [];
    } else {
      assert (ks + [k])[1..] == ks[1..] + [k];
      SumLengthsAppend(ks[1..], m, k);
    }
  }

  lemma {:induction false} SumLengthsReplace(ks: seq<int>, m: map<int, seq<Offer>>, k: int, s: seq<Offer>)
    requires forall i :: 0 <= i < |ks| ==> ks[i] in m
    requires forall i, j :: 0 <= i < j < |ks| ==> ks[i] != ks[j]
    requires k in ks
    ensures SumLengths(ks, m[k := s]) + |m[k]| == SumLengths(ks, m) + |s|
  {
    if ks[0] == k {
      assert k !in ks[1..] by {
        forall i | 0 <= i < |ks[1..]| ensures ks[1..][i] != k {
          assert ks[1..][i] == ks[i + 1];
        }
      }
      SumLengthsFrame(ks[1..], m, k, s);
    } else {
      assert k in ks[1..];
      SumLengthsReplace(ks[1..], m, k, s);
    }
  }

  /** Adding one offer to a bucket (new or existing) adds one to the bucket total. */
  lemma BucketTotalAdd(d: Dict<int, seq<Offer>>, r: int, b: seq<Offer>, o: Offer)
    requires d.Valid()
    requires b == (if r in d.entries then d.entries[r] else [])
    ensures d.Put(r, b + [o]).Valid()
    ensures BucketTotal(d.Put(r, b + [o])) == BucketTotal(d) + 1
  {
    var d' := d.Put(r, b + [o]);
    if r in d.entries {
      SumLengthsReplace(d.order, d.entries, r, b + [o]);
    } else {
      SumLengthsFrame(d.order, d.entries, r, b + [o]);
      SumLengthsAppend(d.order, d.entries[r := b + [o]], r);
    }
  }

  /** Opening a round's empty bucket leaves the total unchanged. */
  lemma BucketTotalOpen(d: Dict<int, seq<Offer>>, r: int)
    requires d.Valid() && r !in d.entries
    ensures d.Put(r, []).Valid() && BucketTotal(d.Put(r, [])) == BucketTotal(d)
  {
    SumLengthsFrame(d.order, d.entries, r, []);
    SumLengthsAppend(d.order, d.entries[r := []], r);
  }

  lemma BaseFoldKeepsDicts(b: BaseView, e: Event)
    requires b.counterparties.Valid()
    ensures FoldBase(b, e).counterparties.Valid()
  {
  }

  lemma NegotiationFoldPreservesWellFormed(n: NegotiationView, e: Event, now: Timestamp)
    requires WellFormed(NegotiationSession(n))
    ensures WellFormed(NegotiationSession(FoldNegotiation(n, e, now)))
  {
    BaseFoldKeepsDicts(n.base, e);
    if e.eventType == OfferSent || e.eventType == OfferReceived {
      NegotiationOfferKeepsWellFormed(n, e, now);
    }
  }

  /** Recording an offer puts it in its map and makes it the last one, keeping `LastOffersRecorded`. */
  lemma NegotiationOfferKeepsWellFormed(n: NegotiationView, e: Event, now: Timestamp)
    requires WellFormed(NegotiationSession(n))
    requires e.eventType == OfferSent || e.eventType == OfferReceived
    ensures WellFormed(NegotiationSession(FoldNegotiation(n, e, now)))
  {
    BaseFoldKeepsDicts(n.base, e);
  }

  lemma AuctionFoldPreservesWellFormed(a: AuctionView, e: Event, now: Timestamp)
    requires WellFormed(AuctionSession(a))
    ensures WellFormed(AuctionSession(FoldAuction(a, e, now)))
  {
    if e.eventType == BiddingRoundStarted {
      AuctionRoundKeepsWellFormed(a, e, now);
    } else if e.eventType == OfferReceived {
      AuctionOfferKeepsWellFormed(a, e, now);
    } else {
      BaseFoldKeepsDicts(a.base, e);
    }
  }

  /** Opening a round's bucket, when it is new, adds no offers. */
  lemma AuctionRoundKeepsWellFormed(a: AuctionView, e: Event, now: Timestamp)
    requires WellFormed(AuctionSession(a)) && e.eventType == BiddingRoundStarted
    ensures WellFormed(AuctionSession(FoldAuction(a, e, now)))
  {
    var r := NumOr(e.data, "round_number", a.currentRound + 1);
    var b1 := FoldBase(a.base, e);
    assert b1 == a.base.(updatedAt := e.timestamp);
    var d := if r in a.offersByRound.entries then a.offersByRound else a.offersByRound.Put(r, []);
    assert FoldAuction(a, e, now) == a.(base := b1, currentRound := r, roundStartTime := Some(e.timestamp), offersByRound := d);
    if r !in a.offersByRound.entries {
      BucketTotalOpen(a.offersByRound, r);
    }
  }

  /** Recording an offer adds it to `all_offers` and to exactly one bucket. */
  lemma AuctionOfferKeepsWellFormed(a: AuctionView, e: Event, now: Timestamp)
    requires WellFormed(AuctionSession(a)) && e.eventType == OfferReceived
    ensures WellFormed(AuctionSession(FoldAuction(a, e, now)))
  {
    BaseFoldKeepsDicts(a.base, e);
    if ReadOffer(e, now).Read? {
      var r := RoundArg(e.data).GetOr(a.currentRound);
      BucketTotalAdd(a.offersByRound, r, Bucket(a, r), ReadOffer(e, now).offer);
    }
  }

  /** Folding any event preserves `WellFormed`. */
  lemma FoldPreservesWellFormed(sv: SessionView, e: Event, now: Timestamp)
    requires WellFormed(sv)
    ensures WellFormed(Fold(sv, e, now))
  {
    match sv
    case NegotiationSession(n) => NegotiationFoldPreservesWellFormed(n, e, now);
    case AuctionSession(a) => AuctionFoldPreservesWellFormed(a, e, now);
  }

  function InitialBase(sessionId: string, sessionType: SessionType, role: AgentRole, item: Item,
                       contextId: Option<string>, now: Timestamp): (b: BaseView)
    ensures b.counterparties.Valid()
  {
    BaseView(sessionId, sessionType, role, item, contextId, Initialized, now, now, Dicts.Empty(), map[])
  }

  // ---------------------------------------------------------------------
  // The classes

  /** The fields every session has. */
  class SessionState {
    const sessionId: string
    const sessionType: SessionType
    const role: AgentRole
    const item: Item
    var contextId: Option<string>
    var status: Status
    var createdAt: Timestamp
    var updatedAt: Timestamp
    var counterparties: Dict<string, Counterparty>
    var metadata: Object

    function View(): BaseView
      reads this
    {
      BaseView(sessionId, sessionType, role, item, contextId, status, createdAt, updatedAt, counterparties, metadata)
    }

    constructor (sessionId: string, sessionType: SessionType, role: AgentRole, item: Item, contextId: Option<string>, now: Timestamp)
      ensures View() == InitialBase(sessionId, sessionType, role, item, contextId, now)
    {
      this.sessionId := sessionId;
      this.sessionType := sessionType;
      this.role := role;
      this.item := item;
      this.contextId := contextId;
      status := Initialized;
      createdAt := now;
      updatedAt := now;
      counterparties := Dicts.Empty();
      metadata := map[];
    }

    /** `add_counterparty`: sets `{endpoint[, name]}` under the context; a falsy name is dropped. */
    method AddCounterparty(endpoint: string, contextId: string, name: Option<string>, now: Timestamp)
      modifies this
      ensures View() == old(View()).(
        counterparties := old(counterparties).Put(contextId, Counterparty(endpoint, if name.Some? && name.value != "" then name else None)),
        updatedAt := now)
    {
      counterparties := counterparties.Put(contextId, Counterparty(endpoint, if name.Some? && name.value != "" then name else None));
      updatedAt := now;
    }

    /**
     * `get_all_contexts`, read off the snapshot: the primary context first
     * when it is set and non-empty, then the counterparty contexts in the
     * order they joined.
     */
    function GetAllContexts(): (r: seq<string>)
      reads this
      ensures contextId.Some? && contextId.value != "" ==> r == [contextId.value] + counterparties.order
      ensures contextId.None? || contextId.value == "" ==> r == counterparties.order
    {
      View().AllContexts()
    }

    /** `get_counterparty_endpoint`: the endpoint recorded for a context, or None. */
    function GetCounterpartyEndpoint(contextId: string): (r: Option<string>)
      reads this
      ensures r.Some? <==> contextId in counterparties.entries
      ensures r.Some? ==> r.value == counterparties.entries[contextId].endpoint
    {
      match counterparties.Get(contextId)
      case Some(cp) => Some(cp.endpoint)
      case None => None
    }

    /** `SessionState.apply_event`; `err` is the exception it would raise. */
    method ApplyEvent(e: Event) returns (err: Option<string>)
      modifies this
      ensures View() == FoldBase(old(View()), e)
      ensures err.Some? <==> BaseRaises(e)
    {
      err := None;
      updatedAt := e.timestamp;
      match e.eventType {
        case SessionStarted => status := Active;
        case SessionCompleted => status := Completed;
        case SessionCancelled => status := Cancelled;
        case SessionFailed => status := Failed;
        case CounterpartyJoined =>
          var joined := JoinedCounterparty(e.data);
          if joined.Some? {
            counterparties := counterparties.Put(joined.value.0, joined.value.1);
          }
        case StateUpdated =>
          var updates := UpdatesOf(e);
          if !updates.JObj? {
            err := Some(UpdatesError);
          } else {
            var u := updates.fields;
            var before := View();
            status := UpdatedStatus(before, u);
            contextId := UpdatedContext(before, u);
            metadata := UpdatedMetadata(before, u);
          }
        case _ =>
      }
    }
  }

  /** State of a one-to-one negotiation. */
  class NegotiationState {
    const base: SessionState
    var currentRound: int
    var maxRounds: Option<int>
    var timeoutSeconds: Option<int>
    var timeoutAt: Option<Timestamp>
    var lastOfferSent: Option<Offer>
    var lastOfferReceived: Option<Offer>
    var offersSent: Dict<string, Offer>
    var offersReceived: Dict<string, Offer>
    var discoveryMessages: seq<DiscoveryEntry>

    function View(): NegotiationView
      reads this, base
    {
      NegotiationView(base.View(), currentRound, maxRounds, timeoutSeconds, timeoutAt, lastOfferSent,
        lastOfferReceived, offersSent, offersReceived, discoveryMessages)
    }

    constructor (sessionId: string, role: AgentRole, item: Item, contextId: Option<string>,
                 maxRounds: Option<int>, timeoutSeconds: Option<int>, now: Timestamp)
      ensures fresh(base)
      ensures View() == InitialNegotiation(sessionId, role, item, contextId, maxRounds, timeoutSeconds, now)
    {
      base := new SessionState(sessionId, Negotiation, role, item, contextId, now);
      currentRound := 0;
      this.maxRounds := maxRounds;
      this.timeoutSeconds := timeoutSeconds;
      timeoutAt := None;
      lastOfferSent := None;
      lastOfferReceived := None;
      offersSent := Dicts.Empty();
      offersReceived := Dicts.Empty();
      discoveryMessages := [];
    }

    /** `NegotiationState.apply_event`; `err` is the exception it would raise. */
    method ApplyEvent(e: Event, now: Timestamp) returns (err: Option<string>)
      modifies this, base
      ensures View() == FoldNegotiation(old(View()), e, now)
      ensures err.Some? <==> NegotiationRaises(e, now)
    {
      ghost var v0 := old(View());
      err := base.ApplyEvent(e);
      ghost var v1 := v0.(base := FoldBase(v0.base, e));
      assert View() == v1;
      if err.Some? {
        return;
      }
      match e.eventType {
        case NegotiationRoundStarted =>
          currentRound := NumOr(e.data, "round_number", currentRound + 1);
        case OfferSent =>
          var read := ReadOffer(e, now);
          if read.Read? {
            offersSent := offersSent.Put(read.offer.offerId, read.offer);
            lastOfferSent := Some(read.offer);
          } else if read.Malformed? {
            err := Some(read.error);
          }
        case OfferReceived =>
          var read := ReadOffer(e, now);
          if read.Read? {
            offersReceived := offersReceived.Put(read.offer.offerId, read.offer);
            lastOfferReceived := Some(read.offer);
          } else if read.Malformed? {
            err := Some(read.error);
          }
        case OfferAccepted =>
          base.status := Completed;
        case DiscoveryReceived =>
          discoveryMessages := discoveryMessages + [DiscoveryOf(e)];
        case _ =>
      }
    }

    /** `get_all_offers`: the sent offers then the received ones, each in insertion order. */
    function GetAllOffers(): (r: seq<Offer>)
      reads this
      requires offersSent.Valid() && offersReceived.Valid()
      ensures |r| == offersSent.Size() + offersReceived.Size()
      ensures forall i :: 0 <= i < offersSent.Size() ==> r[i] == offersSent.entries[offersSent.order[i]]
      ensures forall i :: 0 <= i < offersReceived.Size() ==>
        r[offersSent.Size() + i] == offersReceived.entries[offersReceived.order[i]]
    {
      offersSent.Values() + offersReceived.Values()
    }
  }

  function InitialNegotiation(sessionId: string, role: AgentRole, item: Item, contextId: Option<string>,
                              maxRounds: Option<int>, timeoutSeconds: Option<int>, now: Timestamp): (v: NegotiationView)
    ensures WellFormed(NegotiationSession(v))
  {
    NegotiationView(InitialBase(sessionId, Negotiation, role, item, contextId, now), 0, maxRounds, timeoutSeconds,
      None, None, None, Dicts.Empty(), Dicts.Empty(), [])
  }

  /** State of a multi-round reverse auction. */
  class ReverseAuctionState {
    const base: SessionState
    var currentRound: int
    var totalRounds: int
    var roundDuration: int
    var roundStartTime: Option<Timestamp>
    var expectedParticipants: int
    var actualParticipants: int
    var offersByRound: Dict<int, seq<Offer>>
    var allOffers: seq<Offer>
    var discoveryMessages: seq<DiscoveryEntry>

    function View(): AuctionView
      reads this, base
    {
      AuctionView(base.View(), currentRound, totalRounds, roundDuration, roundStartTime, expectedParticipants,
        actualParticipants, offersByRound, allOffers, discoveryMessages)
    }

    constructor (sessionId: string, role: AgentRole, item: Item, contextId: Option<string>,
                 totalRounds: int, roundDuration: int, expectedParticipants: int, now: Timestamp)
      ensures fresh(base)
      ensures View() == InitialAuction(sessionId, role, item, contextId, totalRounds, roundDuration, expectedParticipants, now)
    {
      base := new SessionState(sessionId, ReverseAuction, role, item, contextId, now);
      currentRound := 0;
      this.totalRounds := totalRounds;
      this.roundDuration := roundDuration;
      roundStartTime := None;
      this.expectedParticipants := expectedParticipants;
      actualParticipants := 0;
      offersByRound := Dicts.Empty();
      allOffers := [];
      discoveryMessages := [];
    }

    /** `add_offer`: appends to `all_offers` and to the round's bucket, creating it; no round means the current one. */
    method AddOffer(offer: Offer, roundNumber: Option<int>, now: Timestamp)
      modifies this, base
      ensures View() == WithOffer(old(View()), offer, roundNumber, now)
    {
      var r := if roundNumber.Some? then roundNumber.value else currentRound;
      allOffers := allOffers + [offer];
      var bucket := if r in offersByRound.entries then offersByRound.entries[r] else [];
      offersByRound := offersByRound.Put(r, bucket + [offer]);
      base.updatedAt := now;
    }

    /** `ReverseAuctionState.apply_event`; `err` is the exception it would raise. */
    method ApplyEvent(e: Event, now: Timestamp) returns (err: Option<string>)
      modifies this, base
      ensures View() == FoldAuction(old(View()), e, now)
      ensures err.Some? <==> AuctionRaises(e, now)
    {
      ghost var v0 := old(View());
      err := base.ApplyEvent(e);
      ghost var v1 := v0.(base := FoldBase(v0.base, e));
      assert View() == v1;
      if err.Some? {
        return;
      }
      match e.eventType {
        case ReverseAuctionStarted =>
          base.status := Active;
        case BiddingRoundStarted =>
          currentRound := NumOr(e.data, "round_number", currentRound + 1);
          roundStartTime := Some(e.timestamp);
          if currentRound !in offersByRound.entries {
            offersByRound := offersByRound.Put(currentRound, []);
          }
        case OfferReceived =>
          var round := RoundArg(e.data);
          var read := ReadOffer(e, now);
          if read.Read? {
            AddOffer(read.offer, round, now);
            assert View() == WithOffer(v1, read.offer, round, now);
          } else if read.Malformed? {
            err := Some(read.error);
          }
        case DiscoveryReceived =>
          discoveryMessages := discoveryMessages + [DiscoveryOf(e)];
        case _ =>
      }
    }

    /** `get_all_offers`: every recorded offer across rounds, in arrival order. */
    function GetAllOffers(): (r: seq<Offer>)
      reads this
      requires offersByRound.Valid() && BucketTotal(offersByRound) == |allOffers|
      ensures r == allOffers && |r| == BucketTotal(offersByRound)
    {
      allOffers
    }
  }

  function InitialAuction(sessionId: string, role: AgentRole, item: Item, contextId: Option<string>,
                          totalRounds: int, roundDuration: int, expectedParticipants: int, now: Timestamp): (v: AuctionView)
    ensures WellFormed(AuctionSession(v))
  {
    AuctionView(InitialBase(sessionId, ReverseAuction, role, item, contextId, now), 0, totalRounds, roundDuration,
      None, expectedParticipants, 0, Dicts.Empty(), [], [])
  }
}
