/**
 * The coordinator of a reverse auction, as the current client runs it:
 * one buyer, every counterparty of the session a seller. Each round it
 * opens, optionally asks the agent for its own discovery message, sends
 * the round's discovery payload to every seller, records the offers the
 * replies carry and closes the round; once the rounds are over it
 * completes the session with every offer received. Every event carries
 * the coordinator's `uuid` as `emitter`.
 */
module ReverseAuctionCoordination {
  import opened Wrappers
  import opened Json
  import opened Types
  import opened Events
  import opened SessionStates
  import opened StateManagement
  import opened MessageParsing
  import opened Messages
  import opened Coordination
  import opened AuctionRules
  import opened AuctionSteps

  /** `events` are DISCOVERY_SENT events carrying `data`, one on each context of `keys`, in order. */
  ghost predicate SentLog(events: seq<Event>, keys: seq<string>, data: Object) {
    |events| == |keys|
    && forall i :: 0 <= i < |keys| ==>
         events[i].eventType == DiscoverySent && events[i].data == data && events[i].contextId == Some(keys[i])
  }

  lemma SentLogMore(events: seq<Event>, keys: seq<string>, i: nat, e: Event, data: Object)
    requires i < |keys| && SentLog(events, keys[..i], data)
    requires e.eventType == DiscoverySent && e.data == data && e.contextId == Some(keys[i])
    ensures SentLog(events + [e], keys[..i + 1], data)
  {
  }

  /** The events a round's announcement logs: DISCOVERY_MESSAGE with the payload, then DISCOVERY_SENT on each seller's context. */
  ghost predicate Announced(y: seq<Event>, d: Object, keys: seq<string>, em: Emitter) {
    && |y| == 1 + |keys|
    && y[0].eventType == DiscoveryMessage && y[0].data == DiscoveryEventData(d, em) && y[0].contextId == None
    && SentLog(y[1..], keys, DiscoveryEventData(d, em))
  }

  /**
   * The events a round's discovery logs: its announcement, then one
   * OFFER_RECEIVED per offer recorded from the replies.
   */
  ghost predicate RoundTraffic(x: seq<Event>, d: Object, keys: seq<string>, got: seq<Offer>, round: int, em: Emitter) {
    && |x| == 1 + |keys| + |got|
    && Announced(x[..1 + |keys|], d, keys, em)
    && OffersLogged(x[..1 + |keys|], x, got, round, em)
  }

  /** Nothing a round's discovery logs starts or ends a round. */
  lemma TrafficQuiet(x: seq<Event>, d: Object, keys: seq<string>, got: seq<Offer>, round: int, em: Emitter)
    requires RoundTraffic(x, d, keys, got, round, em)
    ensures forall i :: 0 <= i < |x| ==> x[i].eventType != BiddingRoundStarted && x[i].eventType != BiddingRoundEnded
  {
    forall i | 0 <= i < |x|
      ensures x[i].eventType != BiddingRoundStarted && x[i].eventType != BiddingRoundEnded
    {
      if 1 <= i < 1 + |keys| {
        assert x[..1 + |keys|][1..][i - 1] == x[i];
      } else if i == 0 {
        assert x[..1 + |keys|][0] == x[0];
      } else {
        assert x[i].eventType == OfferReceived;
      }
    }
  }

  /** Offer events logged after `p + q` are logged after `q` in the part of the log past `p`. */
  lemma OffersLoggedPast(p: seq<Event>, q: seq<Event>, log: seq<Event>, got: seq<Offer>, round: int, em: Emitter)
    requires OffersLogged(p + q, log, got, round, em)
    ensures |log| >= |p| && OffersLogged(q, log[|p|..], got, round, em)
  {
    var l := log[|p|..];
    assert log[..|p + q|][|p|..] == q;
    assert l[..|q|] == q;
    forall i | |q| <= i < |l|
      ensures l[i].eventType == OfferReceived && l[i].data == OfferEventData(got[i - |q|], round, em)
    {
      assert l[i] == log[|p| + i];
    }
  }

  class ReverseAuctionCoordinator {
    const sm: StateManager
    const agent: Option<Agent>
    /** The session messenger; None when no connection manager was given. */
    const messenger: Option<Messenger>
    const uuid: Option<string>
    /** Every event this coordinator logs is tagged with its uuid. */
    const em: Emitter := Tagged(uuid)
    /** Agent consultations made so far; the count numbers the next one. */
    var consulted: nat
    /** Discovery messages sent so far; the count numbers the next send. */
    var sent: nat

    constructor (agent: Option<Agent>, messenger: Option<Messenger>, sm: StateManager, uuid: Option<string>)
      ensures this.agent == agent && this.messenger == messenger && this.sm == sm && this.uuid == uuid
      ensures consulted == 0 && sent == 0
    {
      this.agent := agent;
      this.messenger := messenger;
      this.sm := sm;
      this.uuid := uuid;
      consulted := 0;
      sent := 0;
    }


    /** The replies to sending `d` to each context of `keys`, the sends numbered from `from`. */
    function Replies(d: Object, keys: seq<string>, from: nat): (rs: seq<Result<seq<ParsedMessage>>>)
      requires messenger.Some?
      ensures |rs| == |keys| && forall i :: 0 <= i < |keys| ==> rs[i] == Reply(d, keys[i], from + i)
    {
      seq(|keys|, i requires 0 <= i < |keys| => Reply(d, keys[i], from + i))
    }

    /** The reply to sending `d` to the context `key`, as the `n`th send. */
    function Reply(d: Object, key: string, n: nat): Result<seq<ParsedMessage>>
      requires messenger.Some?
    {
      messenger.value(n, DiscoveryOut(d, Some(key)))
    }

    /** What the agent makes of round `r`'s opened state, once per round when there is an agent. */
    function AgentCustom(n: nat, sv: SessionView): Option<(string, Object)> {
      Custom(if agent.Some? then Some(agent.value(n, sv)) else None)
    }

    /**
     * Steps 1 and 2 of a round: BIDDING_ROUND_STARTED, then the agent,
     * when there is one, is consulted on the state it leaves; an agent
     * that raises or answers with anything but a discovery action leaves
     * the default message in place.
     */
    method OpenRound(sid: string, r: int) returns (custom: Option<(string, Object)>, ghost e: Event)
      requires Ready(sm, sid) && sid in sm.states
      modifies sm, this`consulted
      ensures Ready(sm, sid) && OnlySession(sm, sid) && sid in sm.states
      ensures var a := old(sm.states[sid]).a;
        && sm.Log(sid) == old(sm.Log(sid)) + [e]
        && e.eventType == BiddingRoundStarted && e.data == RoundOpenData(r, a.roundDuration, em) && e.contextId == None
        && sm.states[sid] == AuctionSession(Opened(a, r, old(sm.clock)))
      ensures consulted == old(consulted) + (if agent.Some? then 1 else 0)
      ensures custom == AgentCustom(old(consulted), sm.states[sid])
    {
      e := RecordOpen(sm, sid, r, em);
      custom := None;
      if agent.Some? {
        var reply := agent.value(consulted, sm.states[sid]);
        consulted := consulted + 1;
        custom := Custom(Some(reply));
      }
    }

    /** One seller's task up to its send: DISCOVERY_SENT on the seller's context, then the send. */
    method SendTo(sid: string, key: string, d: Object) returns (reply: Result<seq<ParsedMessage>>, ghost e: Event)
      requires Ready(sm, sid) && sid in sm.states && messenger.Some?
      requires sm.states[sid].a.base.updatedAt == sm.clock
      modifies sm, this`sent
      ensures Ready(sm, sid) && OnlySession(sm, sid) && sid in sm.states && sm.states[sid] == old(sm.states[sid])
      ensures sm.Log(sid) == old(sm.Log(sid)) + [e]
      ensures e.eventType == DiscoverySent && e.data == DiscoveryEventData(d, em) && e.contextId == Some(key)
      ensures sent == old(sent) + 1 && reply == Reply(d, key, old(sent))
    {
      TouchedAgain(sm.states[sid].a, sm.clock);
      e := RecordQuiet(sm, sid, DiscoverySent, DiscoveryEventData(d, em), Some(key));
      reply := messenger.value(sent, DiscoveryOut(d, Some(key)));
      sent := sent + 1;
    }

    lemma RepliesMore(d: Object, keys: seq<string>, i: nat, from: nat)
      requires messenger.Some? && i < |keys|
      ensures Replies(d, keys[..i + 1], from) == Replies(d, keys[..i], from) + [Reply(d, keys[i], from + i)]
    {
    }

    /**
     * The first part of every seller's task, seller by seller. A send
     * hands control back only once every task has made its own, so the
     * replies are handled after all of them.
     */
    method Broadcast(sid: string, keys: seq<string>, d: Object) returns (replies: seq<Result<seq<ParsedMessage>>>,
                                                                       ghost sentEvents: seq<Event>)
      requires Ready(sm, sid) && sid in sm.states && messenger.Some?
      requires sm.states[sid].a.base.updatedAt == sm.clock
      modifies sm, this`sent
      ensures Ready(sm, sid) && OnlySession(sm, sid) && sid in sm.states && sm.states[sid] == old(sm.states[sid])
      ensures sm.Log(sid) == old(sm.Log(sid)) + sentEvents && SentLog(sentEvents, keys, DiscoveryEventData(d, em))
      ensures sent == old(sent) + |keys| && replies == Replies(d, keys, old(sent))
    {
      replies, sentEvents := [], [];
      ghost var log0, sv0, from := sm.Log(sid), sm.states[sid], sent;
      var i := 0;
      while i < |keys|
        invariant 0 <= i <= |keys|
        invariant Ready(sm, sid) && OnlySession(sm, sid) && sid in sm.states && sm.states[sid] == sv0
        invariant sm.Log(sid) == log0 + sentEvents && SentLog(sentEvents, keys[..i], DiscoveryEventData(d, em))
        invariant sent == from + i && replies == Replies(d, keys[..i], from)
      {
        var reply, e := SendTo(sid, keys[i], d);
        SentLogMore(sentEvents, keys, i, e, DiscoveryEventData(d, em));
        RepliesMore(d, keys, i, from);
        replies, sentEvents := replies + [reply], sentEvents + [e];
        i := i + 1;
      }
      assert keys[..|keys|] == keys;
    }

    /** The round's payload logged once as DISCOVERY_MESSAGE, then sent to every seller. */
    method Announce(sid: string, d: Object) returns (replies: seq<Result<seq<ParsedMessage>>>, ghost y: seq<Event>)
      requires Ready(sm, sid) && sid in sm.states && messenger.Some?
      modifies sm, this`sent
      ensures Ready(sm, sid) && OnlySession(sm, sid) && sid in sm.states
      ensures var a := old(sm.states[sid]).a;
        && sm.states[sid] == AuctionSession(Touched(a, old(sm.clock)))
        && sm.Log(sid) == old(sm.Log(sid)) + y && Announced(y, d, a.base.counterparties.Keys(), em)
        && sent == old(sent) + |a.base.counterparties.Keys()| && replies == Replies(d, a.base.counterparties.Keys(), old(sent))
    {
      ghost var log0 := sm.Log(sid);
      var keys := sm.states[sid].a.base.counterparties.Keys();
      var e := RecordQuiet(sm, sid, DiscoveryMessage, DiscoveryEventData(d, em), None);
      ghost var sentEvents;
      replies, sentEvents := Broadcast(sid, keys, d);
      y := [e] + sentEvents;
      assert y[1..] == sentEvents;
      AppendAssoc(log0, [e], sentEvents);
    }

    /**
     * Step 3 of a round, `_request_offers_from_sellers`: without a
     * messenger nothing happens; otherwise the round's payload, the
     * agent's message or the default one, is logged once, sent to every
     * seller, and every reply's offers are recorded against the round.
     */
    method RequestOffers(sid: string, r: int, custom: Option<(string, Object)>) returns (ghost x: seq<Event>, ghost got: seq<Offer>)
      requires Ready(sm, sid) && sid in sm.states
      modifies sm, this`sent
      ensures Ready(sm, sid) && OnlySession(sm, sid) && sid in sm.states
      ensures sm.Log(sid) == old(sm.Log(sid)) + x
      ensures forall i :: 0 <= i < |x| ==> x[i].eventType != BiddingRoundStarted && x[i].eventType != BiddingRoundEnded
      ensures messenger.None? ==> x == [] && got == [] && sm.states == old(sm.states) && sent == old(sent)
      ensures messenger.Some? ==>
        var a := old(sm.states[sid]).a;
        var p := Prompt(custom, r, Bucket(a, r - 1));
        var d := RoundDiscoveryData(r, a.totalRounds, p.0, p.1);
        var keys := a.base.counterparties.Keys();
        && RoundTraffic(x, d, keys, got, a.currentRound, em)
        && sent == old(sent) + |keys|
        && got == Gathered(Replies(d, keys, old(sent)), old(sm.clock))
        && Collected(a, sm.states[sid].a, got)
    {
      if messenger.None? {
        return [], [];
      }
      ghost var log0, now := sm.Log(sid), sm.clock;
      var a := sm.states[sid].a;
      var p := Prompt(custom, r, Bucket(a, r - 1));
      var d := RoundDiscoveryData(r, a.totalRounds, p.0, p.1);
      var replies, y := Announce(sid, d);
      ghost var a1 := sm.states[sid].a;
      NothingCollected(a, now);
      got := Collect(sm, sid, replies, em);
      CollectedTrans(a, a1, sm.states[sid].a, [], got);
      assert [] + got == got;
      ghost var log := sm.Log(sid);
      x := y + log[|log0 + y|..];
      OffersLoggedPast(log0, y, log, got, a.currentRound, em);
      SplitAt(log, |log0 + y|);
      AppendAssoc(log0, y, log[|log0 + y|..]);
      assert x[..|y|] == y;
      TrafficQuiet(x, d, a.base.counterparties.Keys(), got, a.currentRound, em);
    }

    /** Step 4 of a round: BIDDING_ROUND_ENDED with the number of offers round `r` holds. */
    method CloseRound(sid: string, r: int) returns (ghost e: Event)
      requires Ready(sm, sid) && sid in sm.states
      modifies sm
      ensures Ready(sm, sid) && OnlySession(sm, sid) && sid in sm.states
      ensures var a := old(sm.states[sid]).a;
        && sm.Log(sid) == old(sm.Log(sid)) + [e]
        && e.eventType == BiddingRoundEnded && e.data == RoundCloseData(r, |Bucket(a, r)|, em) && e.contextId == None
        && sm.states[sid] == AuctionSession(Touched(a, old(sm.clock)))
    {
      var a := sm.states[sid].a;
      e := RecordQuiet(sm, sid, BiddingRoundEnded, RoundCloseData(r, |Bucket(a, r)|, em), None);
    }

    /**
     * One round of `_execute_reverse_auction`: it is opened, the agent
     * is consulted, the sellers are asked for offers and the round is
     * closed with the number of offers it holds. The round's events
     * start and end round `r` once each; the offers gathered join round
     * `r` and nothing else about the auction moves.
     */
    method RunRound(sid: string, r: int) returns (ghost x: seq<Event>, ghost got: seq<Offer>)
      requires Ready(sm, sid) && sid in sm.states
      modifies sm, this`consulted, this`sent
      ensures Ready(sm, sid) && OnlySession(sm, sid) && sid in sm.states
      ensures sm.Log(sid) == old(sm.Log(sid)) + x
      ensures RoundNumbers(x, BiddingRoundStarted) == [JNum(r)] && RoundNumbers(x, BiddingRoundEnded) == [JNum(r)]
      ensures var a, a1 := old(sm.states[sid]).a, sm.states[sid].a;
        && Collected(Opened(a, r, old(sm.clock)), a1, got)
        && |x| >= 2
        && x[0].eventType == BiddingRoundStarted && x[0].data == RoundOpenData(r, a.roundDuration, em)
        && x[|x| - 1].eventType == BiddingRoundEnded && x[|x| - 1].data == RoundCloseData(r, |Bucket(a1, r)|, em)
      ensures messenger.None? ==> got == []
    {
      ghost var log0, a, now := sm.Log(sid), sm.states[sid].a, sm.clock;
      var custom, e0 := OpenRound(sid, r);
      var mid, g := RequestOffers(sid, r, custom);
      ghost var a2 := sm.states[sid].a;
      var e1 := CloseRound(sid, r);
      got := g;
      if messenger.None? {
        CollectedSelf(a2);
      }
      CollectedTouched(Opened(a, r, now), a2, got, now);
      x := [e0] + mid + [e1];
      AppendAssoc(log0, [e0], mid);
      AppendAssoc(log0, [e0] + mid, [e1]);
      RoundOfNumber(e0, mid, e1, r, a.roundDuration, |Bucket(a2, r)|, em);
    }

    /**
     * The loop of `_execute_reverse_auction`: rounds 1 to the number of
     * rounds, while the session is active. Nothing a round logs changes
     * the status, so an active session runs every round and any other
     * runs none; the rounds' events number them 1, 2, … in order at both
     * ends, and every offer they gather joins the auction's list.
     */
    method Rounds(sid: string) returns (ghost n: nat, ghost got: seq<Offer>)
      requires Ready(sm, sid) && sid in sm.states
      modifies sm, this`consulted, this`sent
      ensures Ready(sm, sid) && OnlySession(sm, sid) && sid in sm.states
      ensures var a, a1 := old(sm.states[sid]).a, sm.states[sid].a;
        && n == (if a.base.status == Active && a.totalRounds > 0 then a.totalRounds else 0)
        && |sm.Log(sid)| >= |old(sm.Log(sid))| && sm.Log(sid)[..|old(sm.Log(sid))|] == old(sm.Log(sid))
        && RoundNumbers(sm.Log(sid)[|old(sm.Log(sid))|..], BiddingRoundStarted) == Numbered(n)
        && RoundNumbers(sm.Log(sid)[|old(sm.Log(sid))|..], BiddingRoundEnded) == Numbered(n)
        && a1.base.status == a.base.status && a1.totalRounds == a.totalRounds && a1.allOffers == a.allOffers + got
        && a1.currentRound == (if n > 0 then n else a.currentRound)
      ensures messenger.None? ==> got == []
    {
      ghost var log0, a := sm.Log(sid), sm.states[sid].a;
      ghost var rest: seq<Event> := [];
      var total := sm.states[sid].a.totalRounds;
      n, got := 0, [];
      var r, stop := 1, false;
      assert log0 + rest == log0;
      while r <= total && !stop
        decreases total - r, if stop then 0 else 1
        invariant 1 <= r && n == r - 1 && (r == 1 || r <= total + 1)
        invariant a.base.status != Active ==> r == 1
        invariant stop ==> a.base.status != Active || r == total + 1
        invariant Ready(sm, sid) && OnlySession(sm, sid) && sid in sm.states
        invariant sm.Log(sid) == log0 + rest
        invariant RoundNumbers(rest, BiddingRoundStarted) == Numbered(n) && RoundNumbers(rest, BiddingRoundEnded) == Numbered(n)
        invariant var a1 := sm.states[sid].a;
          && a1.base.status == a.base.status && a1.totalRounds == total == a.totalRounds && a1.allOffers == a.allOffers + got
          && a1.currentRound == (if n > 0 then n else a.currentRound)
        invariant messenger.None? ==> got == []
      {
        if sm.states[sid].a.base.status != Active {
          stop := true;
        } else {
          var x, g := RunRound(sid, r);
          var roundOffers := Bucket(sm.states[sid].a, r);
          NumberedMore(rest, x, n);
          AppendAssoc(log0, rest, x);
          AppendAssoc(a.allOffers, got, g);
          rest, got, n := rest + x, got + g, r;
          // The last round ending without offers ends the loop, as running out of rounds would.
          stop := roundOffers == [] && r == total;
          r := r + 1;
        }
      }
      assert sm.Log(sid)[..|log0|] == log0 && sm.Log(sid)[|log0|..] == rest;
    }

    /** The end of `_execute_reverse_auction`: the session completes, the reason saying whether any offer came. */
    method Finish(sid: string) returns (r: CoordinatorResult)
      requires Ready(sm, sid) && sid in sm.states
      modifies sm
      ensures Ready(sm, sid) && OnlySession(sm, sid)
      ensures var a, log0, log := old(sm.states[sid]).a, old(sm.Log(sid)), sm.Log(sid);
        && |log| == |log0| + 1 && log[..|log0|] == log0
        && log[|log0|].eventType == SessionCompleted
        && log[|log0|].data == CompletionData(Completed, FinalReason(a.allOffers), a.allOffers, em)
        && sid in sm.states && sm.states[sid].a.base.status == Completed && sm.states[sid].a.allOffers == a.allOffers
        && r.status == Completed && r.sessionId == sid && r.message == FinalReason(a.allOffers)
        && r.data.AuctionData? && r.data.allOffers == a.allOffers && r.data.totalOffers == |a.allOffers|
        && r.data.rounds == a.currentRound && (r.data.success <==> a.allOffers != [])
    {
      var a := sm.states[sid].a;
      r := Complete(sm, sid, Completed, FinalReason(a.allOffers), em);
      SummaryFacts(sid, a, Completed, FinalReason(a.allOffers), old(sm.clock));
    }

    /**
     * `_execute_reverse_auction`: a session that is missing or not an
     * auction fails as an invalid state; otherwise the rounds run and the
     * session completes with every offer received, the reason saying
     * whether there was any.
     */
    method Execute(sid: string) returns (r: CoordinatorResult, ghost n: nat, ghost got: seq<Offer>)
      requires sm.Valid()
      modifies sm, this`consulted, this`sent
      ensures sm.Valid() && OnlySession(sm, sid)
      ensures sid !in old(sm.states) || !old(sm.states[sid]).AuctionSession? ==>
        r == NotFound(sid, ReverseAuction, InvalidStateReason) && sm.events == old(sm.events) && sm.states == old(sm.states)
      ensures sid in old(sm.states) && old(sm.states[sid]).AuctionSession? ==>
        var a, log0, log := old(sm.states[sid]).a, old(sm.Log(sid)), sm.Log(sid);
        var all := a.allOffers + got;
        && n == (if a.base.status == Active && a.totalRounds > 0 then a.totalRounds else 0)
        && |log| > |log0| && log[..|log0|] == log0
        && RoundNumbers(log[|log0|..], BiddingRoundStarted) == Numbered(n)
        && RoundNumbers(log[|log0|..], BiddingRoundEnded) == Numbered(n)
        && log[|log| - 1].eventType == SessionCompleted
        && log[|log| - 1].data == CompletionData(Completed, FinalReason(all), all, em)
        && sid in sm.states && sm.states[sid].AuctionSession?
        && sm.states[sid].a.base.status == Completed && sm.states[sid].a.allOffers == all
        && r.status == Completed && r.sessionId == sid && r.message == FinalReason(all)
        && r.data.AuctionData? && r.data.allOffers == all && r.data.totalOffers == |all|
        && r.data.rounds == (if n > 0 then n else a.currentRound)
        && (r.data.success <==> all != [])
      ensures messenger.None? ==> got == []
    {
      if sid !in sm.states || !sm.states[sid].AuctionSession? {
        return NotFound(sid, ReverseAuction, InvalidStateReason), 0, [];
      }
      ghost var log0 := sm.Log(sid);
      n, got := Rounds(sid);
      ghost var log1 := sm.Log(sid);
      r := Finish(sid);
      NumberedThenCompleted(log0, log1, sm.Log(sid), n);
    }

    /**
     * `start`: `start_session`, whose exception propagates, then every
     * round. A stored session is active once started, so it runs all its
     * rounds, none when the count is not positive.
     */
    method Start(sid: string) returns (r: Result<CoordinatorResult>, ghost n: nat, ghost got: seq<Offer>)
      requires Ready(sm, sid)
      modifies sm, this`consulted, this`sent
      ensures Ready(sm, sid) && OnlySession(sm, sid)
      ensures sid !in old(sm.states) ==>
        r == Failure("ValueError: Session " + sid + " not found in StateManager")
        && sm.events == old(sm.events) && sm.states == old(sm.states)
      ensures sid in old(sm.states) ==>
        var a, log0, log := old(sm.states[sid]).a, old(sm.Log(sid)), sm.Log(sid);
        var all := a.allOffers + got;
        && n == (if a.totalRounds > 0 then a.totalRounds else 0)
        && |log| > |log0| + 1 && log[..|log0|] == log0 && log[|log0|].eventType == ReverseAuctionStarted
        && RoundNumbers(log[|log0| + 1..], BiddingRoundStarted) == Numbered(n)
        && RoundNumbers(log[|log0| + 1..], BiddingRoundEnded) == Numbered(n)
        && log[|log| - 1].eventType == SessionCompleted
        && sid in sm.states && sm.states[sid].a.base.status == Completed && sm.states[sid].a.allOffers == all
        && r.Success? && r.value.status == Completed && r.value.message == FinalReason(all)
        && r.value.data.AuctionData? && r.value.data.allOffers == all
        && r.value.data.rounds == (if n > 0 then n else a.currentRound)
      ensures messenger.None? ==> got == []
    {
      var started := StartSession(sm, sid, em);
      if started.Failure? {
        return Failure(started.error), 0, [];
      }
      ghost var log1 := sm.Log(sid);
      var result;
      result, n, got := Execute(sid);
      r := Success(result);
      StartedThenRounds(old(sm.Log(sid)), log1, sm.Log(sid));
    }

    /** `handle_message`, with this coordinator's tag on every event it logs. */
    method HandleMessage(sid: string, m: ParsedMessage) returns (r: Result<Option<CoordinatorResult>>)
      requires Ready(sm, sid)
      modifies sm
      ensures Ready(sm, sid) && OnlySession(sm, sid)
      ensures sid !in old(sm.states) || old(sm.states[sid]).a.base.status != Active
              || (m.messageType == ActionMsg && m.action != JStr("cancel")) ==>
        r == Success(None) && sm.events == old(sm.events) && sm.states == old(sm.states)
      ensures sid in old(sm.states) && old(sm.states[sid]).a.base.status == Active ==>
        && sid in sm.states
        && MessageHandled(sid, m, em, old(sm.states[sid]).a, old(sm.clock), old(sm.Log(sid)), sm.Log(sid), sm.states[sid].a, r)
    {
      r := AuctionSteps.HandleMessage(sm, sid, m, em);
    }

    /** `cancel_session`: a stored session is cancelled by the user, with this coordinator's tag. */
    method CancelSession(sid: string) returns (cancelled: bool)
      requires Ready(sm, sid)
      modifies sm
      ensures Ready(sm, sid) && OnlySession(sm, sid)
      ensures cancelled <==> sid in old(sm.states)
      ensures !cancelled ==> sm.events == old(sm.events) && sm.states == old(sm.states)
      ensures cancelled ==>
        && |sm.Log(sid)| == |old(sm.Log(sid))| + 1
        && sm.Log(sid)[|old(sm.Log(sid))|].eventType == SessionCancelled
        && sm.Log(sid)[|old(sm.Log(sid))|].data == Stamp(map["reason" := JStr(UserCancelReason)], em)
        && sid in sm.states && sm.states[sid].a.base.status == Cancelled
    {
      cancelled := AuctionSteps.Cancel(sm, sid, em);
    }

    /** `get_session_status`: None unless the session is a stored auction. */
    function GetSessionStatus(sid: string): (r: Option<StatusReport>)
      reads sm
      ensures r.Some? <==> sid in sm.states && sm.states[sid].AuctionSession?
      ensures r.Some? ==>
        var a := sm.states[sid].a;
        r.value == StatusReport(sid, a.base.status, a.currentRound, a.totalRounds, |a.allOffers|)
    {
      Report(sid, sm.GetSession(sid))
    }
  }
}
