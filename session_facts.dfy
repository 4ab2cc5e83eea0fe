/**
 * What folding one event does to a session, stated against the event
 * payload rather than against the fold's own code.
 */
module SessionFacts {
  import opened Wrappers
  import opened Json
  import opened Dicts
  import opened Types
  import opened Events
  import opened SessionStates

  /** Every fold stamps `updated_at` with the event time; only `add_offer` then overwrites it with the clock. */
  lemma FoldStampsUpdatedAt(sv: SessionView, e: Event, now: Timestamp)
    ensures Fold(sv, e, now).Base().updatedAt
         == if sv.AuctionSession? && e.eventType == OfferReceived && ReadOffer(e, now).Read? then now else e.timestamp
  {
  }

  /** The status a lifecycle event sets, whatever the status was. */
  function LifecycleStatus(t: EventType): Option<Status> {
    match t
    case SessionStarted => Some(Active)
    case SessionCompleted => Some(Completed)
    case SessionCancelled => Some(Cancelled)
    case SessionFailed => Some(Failed)
    case _ => None
  }

  /**
   * Lifecycle events set their status unconditionally: there is no
   * guard against leaving a terminal status, and applying the same
   * event twice gives the status once.
   */
  lemma LifecycleEventSetsStatus(sv: SessionView, e: Event, e': Event, now: Timestamp, now': Timestamp)
    requires LifecycleStatus(e.eventType).Some? && e'.eventType == e.eventType
    ensures Fold(sv, e, now).Base().status == LifecycleStatus(e.eventType).value
    ensures Fold(Fold(sv, e, now), e', now').Base().status == Fold(sv, e, now).Base().status
    ensures Fold(sv, e, now).Base().counterparties == sv.Base().counterparties
  {
  }

  /** A terminal session still moves on: SESSION_STARTED makes it active again. */
  lemma NoTerminalGuard(sv: SessionView, e: Event, now: Timestamp)
    requires sv.Base().status.IsTerminal() && e.eventType == SessionStarted
    ensures Fold(sv, e, now).Base().status == Active
  {
  }

  /**
   * COUNTERPARTY_JOINED records `{endpoint[, name]}` under the context
   * exactly when both are non-empty strings; a falsy name is left out.
   * Nothing else joins the map.
   */
  lemma CounterpartyJoins(sv: SessionView, e: Event, now: Timestamp)
    requires sv.Base().counterparties.Valid()
    ensures var before, after := sv.Base().counterparties, Fold(sv, e, now).Base().counterparties;
      var endpoint, ctx, name := Get(e.data, "endpoint"), Get(e.data, "context_id"), Get(e.data, "name");
      var joins := e.eventType == CounterpartyJoined && endpoint.JStr? && endpoint.s != "" && ctx.JStr? && ctx.s != "";
      && after.Valid()
      && (forall c :: c in after.entries <==> c in before.entries || (joins && c == ctx.s))
      && (forall c :: c in before.entries && !(joins && c == ctx.s) ==> after.entries[c] == before.entries[c])
      && (joins ==> after.entries[ctx.s] == Counterparty(endpoint.s, if name.JStr? && name.s != "" then Some(name.s) else None))
      && (!joins ==> after == before)
  {
    var b1 := FoldBase(sv.Base(), e);
    assert Fold(sv, e, now).Base().counterparties == b1.counterparties;
    if e.eventType == CounterpartyJoined {
      match JoinedCounterparty(e.data)
      case Some((c, cp)) =>
        assert b1.counterparties == sv.Base().counterparties.Put(c, cp);
      case None =>
        assert b1.counterparties == sv.Base().counterparties;
    } else {
      assert b1.counterparties == sv.Base().counterparties;
    }
  }

  /**
   * STATE_UPDATED touches only the fields it names among `status`,
   * `context_id` and `metadata`; identity, item, creation time and
   * counterparties never change, and a field it does not name keeps
   * its value.
   */
  lemma StateUpdateNamesOnly(sv: SessionView, e: Event, now: Timestamp)
    requires e.eventType == StateUpdated && UpdatesOf(e).JObj?
    ensures var b, b' := sv.Base(), Fold(sv, e, now).Base();
      var u := UpdatesOf(e).fields;
      && b'.(status := b.status, contextId := b.contextId, metadata := b.metadata, updatedAt := b.updatedAt) == b
      && ("status" !in u ==> b'.status == b.status)
      && ("context_id" !in u ==> b'.contextId == b.contextId)
      && ("metadata" !in u ==> b'.metadata == b.metadata)
  {
  }

  /** A STATE_UPDATED naming a known status sets it. */
  lemma StateUpdateSetsStatus(sv: SessionView, e: Event, now: Timestamp, s: Status)
    requires e.eventType == StateUpdated && UpdatesOf(e).JObj?
    requires "status" in UpdatesOf(e).fields && UpdatesOf(e).fields["status"] == JStr(s.Name())
    ensures Fold(sv, e, now).Base().status == s
  {
    assert StatusFromName(s.Name()) == Some(s);
  }

  /**
   * Negotiation offers: the offer maps never lose an entry, and an event
   * of the other direction leaves a map and its last offer alone.
   */
  lemma NegotiationOffersGrow(n: NegotiationView, e: Event, now: Timestamp)
    ensures var n' := FoldNegotiation(n, e, now);
      && (forall k :: k in n.offersSent.entries ==> k in n'.offersSent.entries)
      && (forall k :: k in n.offersReceived.entries ==> k in n'.offersReceived.entries)
      && (e.eventType != OfferSent ==> n'.offersSent == n.offersSent && n'.lastOfferSent == n.lastOfferSent)
      && (e.eventType != OfferReceived ==>
            n'.offersReceived == n.offersReceived && n'.lastOfferReceived == n.lastOfferReceived)
  {
  }

  /** A readable offer is stored under its id and becomes the last one of its direction; otherwise only the timestamp moves. */
  lemma NegotiationRecordsOffer(n: NegotiationView, e: Event, now: Timestamp)
    requires e.eventType == OfferSent || e.eventType == OfferReceived
    ensures var n' := FoldNegotiation(n, e, now);
      match ReadOffer(e, now)
      case Read(o) =>
        if e.eventType == OfferSent then
          n'.offersSent.Get(o.offerId) == Some(o) && n'.lastOfferSent == Some(o)
        else
          n'.offersReceived.Get(o.offerId) == Some(o) && n'.lastOfferReceived == Some(o)
      case _ => n' == n.(base := n.base.(updatedAt := e.timestamp))
  {
  }

  /** Missing or falsy offer data changes nothing but the timestamp. */
  lemma MissingOfferChangesNothing(sv: SessionView, e: Event, now: Timestamp)
    requires e.eventType == OfferSent || e.eventType == OfferReceived
    requires !Truthy(Get(e.data, "offer"))
    ensures Fold(sv, e, now) == match sv
      case NegotiationSession(n) => NegotiationSession(n.(base := n.base.(updatedAt := e.timestamp)))
      case AuctionSession(a) => AuctionSession(a.(base := a.base.(updatedAt := e.timestamp)))
  {
  }

  /** A negotiation round event carries its round number, or advances the round by one. */
  lemma NegotiationRoundAdvances(n: NegotiationView, e: Event, now: Timestamp)
    requires e.eventType == NegotiationRoundStarted
    ensures var r := FoldNegotiation(n, e, now).currentRound;
      && ("round_number" !in e.data ==> r == n.currentRound + 1)
      && ("round_number" in e.data && e.data["round_number"].JNum? ==> r == e.data["round_number"].n)
  {
  }

  /** OFFER_ACCEPTED completes a negotiation by itself. */
  lemma AcceptCompletes(n: NegotiationView, e: Event, now: Timestamp)
    requires e.eventType == OfferAccepted
    ensures FoldNegotiation(n, e, now).base.status == Completed
    ensures FoldNegotiation(n, e, now).offersSent == n.offersSent
  {
  }

  /**
   * BIDDING_ROUND_STARTED sets the round (default one more) and its
   * start time, and opens an empty bucket only when the round has none:
   * an existing bucket keeps its offers.
   */
  lemma BiddingRoundOpens(a: AuctionView, e: Event, now: Timestamp)
    requires e.eventType == BiddingRoundStarted
    ensures var a' := FoldAuction(a, e, now);
      && a'.currentRound == NumOr(e.data, "round_number", a.currentRound + 1)
      && ("round_number" !in e.data ==> a'.currentRound == a.currentRound + 1)
      && a'.roundStartTime == Some(e.timestamp)
      && a'.offersByRound.Get(a'.currentRound)
         == (if a'.currentRound in a.offersByRound.entries then a.offersByRound.Get(a'.currentRound) else Some([]))
      && (forall r :: r != a'.currentRound ==> a'.offersByRound.Get(r) == a.offersByRound.Get(r))
      && a'.allOffers == a.allOffers && a'.base.status == a.base.status
  {
  }

  /**
   * OFFER_RECEIVED in an auction appends the offer to `all_offers` and
   * to the bucket of `data["round"]` (the current round by default),
   * and leaves the status alone; other buckets do not change.
   */
  lemma AuctionRecordsOffer(a: AuctionView, e: Event, now: Timestamp)
    requires e.eventType == OfferReceived && ReadOffer(e, now).Read?
    ensures var a', o := FoldAuction(a, e, now), ReadOffer(e, now).offer;
      var r := if Get(e.data, "round").JNum? then Get(e.data, "round").n else a.currentRound;
      && a'.allOffers == a.allOffers + [o]
      && a'.offersByRound.Get(r) == Some(Bucket(a, r) + [o])
      && (forall r' :: r' != r ==> a'.offersByRound.Get(r') == a.offersByRound.Get(r'))
      && a'.base.status == a.base.status
      && a'.currentRound == a.currentRound
  {
  }
}
