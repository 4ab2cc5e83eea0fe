/**
 * The earlier reverse-auction coordinator, as the legacy package runs
 * it. Its rounds are those of the current one without the agent's say
 * and without the discovery audit trail: each round is opened, the
 * default market message is sent to every seller, the offers the
 * replies carry are recorded and the round is closed. No event carries
 * an `emitter` tag.
 */
module ReverseAuctionLegacy {
  import opened Wrappers
  import opened Json
  import opened Types
  import opened Events
  import opened SessionStates
  import opened StateManagement
  import opened MessageParsing
  import opened Messages
  import opened Coordination
  import opened AuctionRules
  import opened AuctionSteps

  /** The payload every seller receives in round `r`: the default market message on the previous round. */
  function LegacyDiscoveryData(r: int, total: int, prev: seq<Offer>): (d: Object)
    ensures d.Keys == BuiltInKeys
    ensures d["type"] == JStr("round_started") && d["round_number"] == JNum(r) && d["total_rounds"] == JNum(total)
    ensures d["message"] == JStr(DefaultMessage(r, prev))
  {
    RoundDiscoveryData(r, total, DefaultMessage(r, prev), map[])
  }

  class LegacyReverseAuctionCoordinator {
    const sm: StateManager
    /** Held but never consulted by this coordinator. */
    const agent: Option<Agent>
    /** The session messenger; None when no connection manager was given. */
    const messenger: Option<Messenger>
    /** Discovery messages sent so far; the count numbers the next send. */
    var sent: nat

    constructor (agent: Option<Agent>, messenger: Option<Messenger>, sm: StateManager)
      ensures this.agent == agent && this.messenger == messenger && this.sm == sm && sent == 0
    {
      this.agent := agent;
      this.messenger := messenger;
      this.sm := sm;
      sent := 0;
    }

    /** The reply to sending `d` to the context `key`, as the `n`th send. */
    function Reply(d: Object, key: string, n: nat): Result<seq<ParsedMessage>>
      requires messenger.Some?
    {
      messenger.value(n, DiscoveryOut(d, Some(key)))
    }

    /** The replies to sending `d` to each context of `keys`, the sends numbered from `from`. */
    function Replies(d: Object, keys: seq<string>, from: nat): (rs: seq<Result<seq<ParsedMessage>>>)
      requires messenger.Some?
      ensures |rs| == |keys| && forall i :: 0 <= i < |keys| ==> rs[i] == Reply(d, keys[i], from + i)
    {
      seq(|keys|, i requires 0 <= i < |keys| => Reply(d, keys[i], from + i))
    }

    lemma RepliesMore(d: Object, keys: seq<string>, i: nat, from: nat)
      requires messenger.Some? && i < |keys|
      ensures Replies(d, keys[..i + 1], from) == Replies(d, keys[..i], from) + [Reply(d, keys[i], from + i)]
    {
    }

    /**
     * The send of every seller's task, seller by seller; the replies are
     * handled once every send is out. Sending logs nothing.
     */
    method Broadcast(keys: seq<string>, d: Object) returns (replies: seq<Result<seq<ParsedMessage>>>)
      requires messenger.Some?
      modifies this`sent
      ensures sent == old(sent) + |keys| && replies == Replies(d, keys, old(sent))
    {
      replies := [];
      ghost var from := sent;
      var i := 0;
      while i < |keys|
        invariant 0 <= i <= |keys|
        invariant sent == from + i && replies == Replies(d, keys[..i], from)
      {
        var reply := messenger.value(sent, DiscoveryOut(d, Some(keys[i])));
        RepliesMore(d, keys, i, from);
        replies := replies + [reply];
        sent := sent + 1;
        i := i + 1;
      }
      assert keys[..|keys|] == keys;
    }

    /**
     * `_request_offers_from_sellers`: without a messenger nothing
     * happens; otherwise the default message is sent to every seller
     * and every reply's offers are recorded against the current round.
     */
    method RequestOffers(sid: string, r: int) returns (ghost x: seq<Event>, ghost got: seq<Offer>)
      requires Ready(sm, sid) && sid in sm.states
      modifies sm, this`sent
      ensures Ready(sm, sid) && OnlySession(sm, sid) && sid in sm.states
      ensures sm.Log(sid) == old(sm.Log(sid)) + x
      ensures forall i :: 0 <= i < |x| ==> x[i].eventType != BiddingRoundStarted && x[i].eventType != BiddingRoundEnded
      ensures messenger.None? ==> got == [] && sm.events == old(sm.events) && sm.states == old(sm.states) && sent == old(sent)
      ensures messenger.Some? ==>
        var a := old(sm.states[sid]).a;
        var keys := a.base.counterparties.Keys();
        && sent == old(sent) + |keys|
        && got == Gathered(Replies(LegacyDiscoveryData(r, a.totalRounds, Bucket(a, r - 1)), keys, old(sent)), old(sm.clock))
      ensures OffersLogged(old(sm.Log(sid)), sm.Log(sid), got, old(sm.states[sid]).a.currentRound, Untagged)
      ensures Collected(old(sm.states[sid]).a, sm.states[sid].a, got)
    {
      ghost var log0 := sm.Log(sid);
      if messenger.None? {
        x, got := [], [];
        CollectedSelf(sm.states[sid].a);
        assert log0[..|log0|] == log0 && log0 + [] == log0;
        return;
      }
      var a := sm.states[sid].a;
      var d := LegacyDiscoveryData(r, a.totalRounds, Bucket(a, r - 1));
      var replies := Broadcast(a.base.counterparties.Keys(), d);
      got := Collect(sm, sid, replies, Untagged);
      x := sm.Log(sid)[|log0|..];
      OffersQuiet(log0, sm.Log(sid), got, a.currentRound, Untagged);
      SplitAt(sm.Log(sid), |log0|);
    }

    /** The end of a round: BIDDING_ROUND_ENDED with the number of offers round `r` holds. */
    method CloseRound(sid: string, r: int) returns (ghost e: Event)
      requires Ready(sm, sid) && sid in sm.states
      modifies sm
      ensures Ready(sm, sid) && OnlySession(sm, sid) && sid in sm.states
      ensures var a := old(sm.states[sid]).a;
        && sm.Log(sid) == old(sm.Log(sid)) + [e]
        && e.eventType == BiddingRoundEnded && e.data == RoundCloseData(r, |Bucket(a, r)|, Untagged) && e.contextId == None
        && sm.states[sid] == AuctionSession(Touched(a, old(sm.clock)))
    {
      var a := sm.states[sid].a;
      e := RecordQuiet(sm, sid, BiddingRoundEnded, RoundCloseData(r, |Bucket(a, r)|, Untagged), None);
    }

    /**
     * One round of `_execute_reverse_auction`: it is opened, the sellers
     * are asked for offers and it is closed with the number of offers it
     * holds. The round's events start and end round `r` once each; the
     * offers gathered join round `r` and nothing else about the auction
     * moves.
     */
    method RunRound(sid: string, r: int) returns (ghost x: seq<Event>, ghost got: seq<Offer>)
      requires Ready(sm, sid) && sid in sm.states
      modifies sm, this`sent
      ensures Ready(sm, sid) && OnlySession(sm, sid) && sid in sm.states
      ensures sm.Log(sid) == old(sm.Log(sid)) + x
      ensures RoundNumbers(x, BiddingRoundStarted) == [JNum(r)] && RoundNumbers(x, BiddingRoundEnded) == [JNum(r)]
      ensures var a, a1 := old(sm.states[sid]).a, sm.states[sid].a;
        && Collected(Opened(a, r, old(sm.clock)), a1, got)
        && |x| >= 2
        && x[0].eventType == BiddingRoundStarted && x[0].data == RoundOpenData(r, a.roundDuration, Untagged)
        && x[|x| - 1].eventType == BiddingRoundEnded && x[|x| - 1].data == RoundCloseData(r, |Bucket(a1, r)|, Untagged)
      ensures messenger.None? ==> got == []
    {
      ghost var log0, a, now := sm.Log(sid), sm.states[sid].a, sm.clock;
      var e0 := RecordOpen(sm, sid, r, Untagged);
      var mid, g := RequestOffers(sid, r);
      ghost var a2 := sm.states[sid].a;
      var e1 := CloseRound(sid, r);
      got := g;
      CollectedTouched(Opened(a, r, now), a2, got, now);
      x := [e0] + mid + [e1];
      AppendAssoc(log0, [e0], mid);
      AppendAssoc(log0, [e0] + mid, [e1]);
      RoundOfNumber(e0, mid, e1, r, a.roundDuration, |Bucket(a2, r)|, Untagged);
    }

    /**
     * The loop of `_execute_reverse_auction`: rounds 1 to the number of
     * rounds, while the session is active. An active session runs every
     * round and any other runs none; the rounds' events number them
     * 1, 2, … in order at both ends, and every offer they gather joins
     * the auction's list.
     */
    method Rounds(sid: string) returns (ghost n: nat, ghost got: seq<Offer>)
      requires Ready(sm, sid) && sid in sm.states
      modifies sm, this`sent
      ensures Ready(sm, sid) && OnlySession(sm, sid) && sid in sm.states
      ensures var a, a1 := old(sm.states[sid]).a, sm.states[sid].a;
        && n == (if a.base.status == Active && a.totalRounds > 0 then a.totalRounds else 0)
        && |sm.Log(sid)| >= |old(sm.Log(sid))| && sm.Log(sid)[..|old(sm.Log(sid))|] == old(sm.Log(sid))
        && RoundNumbers(sm.Log(sid)[|old(sm.Log(sid))|..], BiddingRoundStarted) == Numbered(n)
        && RoundNumbers(sm.Log(sid)[|old(sm.Log(sid))|..], BiddingRoundEnded) == Numbered(n)
        && a1.base.status == a.base.status && a1.totalRounds == a.totalRounds && a1.allOffers == a.allOffers + got
        && a1.currentRound == (if n > 0 then n else a.currentRound)
      ensures messenger.None? ==> got == []
    {
      ghost var log0, a := sm.Log(sid), sm.states[sid].a;
      ghost var rest: seq<Event> := [];
      var total := sm.states[sid].a.totalRounds;
      n, got := 0, [];
      var r, stop := 1, false;
      assert log0 + rest == log0;
      while r <= total && !stop
        decreases total - r, if stop then 0 else 1
        invariant 1 <= r && n == r - 1 && (r == 1 || r <= total + 1)
        invariant a.base.status != Active ==> r == 1
        invariant stop ==> a.base.status != Active || r == total + 1
        invariant Ready(sm, sid) && OnlySession(sm, sid) && sid in sm.states
        invariant sm.Log(sid) == log0 + rest
        invariant RoundNumbers(rest, BiddingRoundStarted) == Numbered(n) && RoundNumbers(rest, BiddingRoundEnded) == Numbered(n)
        invariant var a1 := sm.states[sid].a;
          && a1.base.status == a.base.status && a1.totalRounds == total == a.totalRounds && a1.allOffers == a.allOffers + got
          && a1.currentRound == (if n > 0 then n else a.currentRound)
        invariant messenger.None? ==> got == []
      {
        if sm.states[sid].a.base.status != Active {
          stop := true;
        } else {
          var x, g := RunRound(sid, r);
          var roundOffers := Bucket(sm.states[sid].a, r);
          NumberedMore(rest, x, n);
          AppendAssoc(log0, rest, x);
          AppendAssoc(a.allOffers, got, g);
          rest, got, n := rest + x, got + g, r;
          // The last round ending without offers ends the loop, as running out of rounds would.
          stop := roundOffers == [] && r == total;
          r := r + 1;
        }
      }
      assert sm.Log(sid)[..|log0|] == log0 && sm.Log(sid)[|log0|..] == rest;
    }

    /** The end of `_execute_reverse_auction`: the session completes, the reason saying whether any offer came. */
    method Finish(sid: string) returns (r: CoordinatorResult)
      requires Ready(sm, sid) && sid in sm.states
      modifies sm
      ensures Ready(sm, sid) && OnlySession(sm, sid)
      ensures var a, log0, log := old(sm.states[sid]).a, old(sm.Log(sid)), sm.Log(sid);
        && |log| == |log0| + 1 && log[..|log0|] == log0
        && log[|log0|].eventType == SessionCompleted
        && log[|log0|].data == CompletionData(Completed, FinalReason(a.allOffers), a.allOffers, Untagged)
        && sid in sm.states && sm.states[sid].a.base.status == Completed && sm.states[sid].a.allOffers == a.allOffers
        && r.status == Completed && r.sessionId == sid && r.message == FinalReason(a.allOffers)
        && r.data.AuctionData? && r.data.allOffers == a.allOffers && r.data.totalOffers == |a.allOffers|
        && r.data.rounds == a.currentRound && (r.data.success <==> a.allOffers != [])
    {
      var a := sm.states[sid].a;
      r := Complete(sm, sid, Completed, FinalReason(a.allOffers), Untagged);
      SummaryFacts(sid, a, Completed, FinalReason(a.allOffers), old(sm.clock));
    }

    /** The rounds and the completion of `_execute_reverse_auction` for a stored auction session. */
    method RunRounds(sid: string) returns (r: CoordinatorResult, ghost n: nat, ghost got: seq<Offer>)
      requires Ready(sm, sid) && sid in sm.states
      modifies sm, this`sent
      ensures sm.Valid() && OnlySession(sm, sid)
      ensures var a, log0, log := old(sm.states[sid]).a, old(sm.Log(sid)), sm.Log(sid);
        var all := a.allOffers + got;
        && n == (if a.base.status == Active && a.totalRounds > 0 then a.totalRounds else 0)
        && |log| > |log0| && log[..|log0|] == log0
        && RoundNumbers(log[|log0|..], BiddingRoundStarted) == Numbered(n)
        && RoundNumbers(log[|log0|..], BiddingRoundEnded) == Numbered(n)
        && log[|log| - 1].eventType == SessionCompleted
        && log[|log| - 1].data == CompletionData(Completed, FinalReason(all), all, Untagged)
        && sid in sm.states && sm.states[sid].AuctionSession?
        && sm.states[sid].a.base.status == Completed && sm.states[sid].a.allOffers == all
        && r.status == Completed && r.sessionId == sid && r.message == FinalReason(all)
        && r.data.AuctionData? && r.data.allOffers == all && r.data.totalOffers == |all|
        && r.data.rounds == (if n > 0 then n else a.currentRound)
        && (r.data.success <==> all != [])
      ensures messenger.None? ==> got == []
    {
      ghost var log0, a := sm.Log(sid), sm.states[sid].a;
      n, got := Rounds(sid);
      ghost var log1, a1 := sm.Log(sid), sm.states[sid].a;
      assert a1.allOffers == a.allOffers + got;
      r := Finish(sid);
      assert r.data.allOffers == a1.allOffers && r.message == FinalReason(a1.allOffers);
      NumberedThenCompleted(log0, log1, sm.Log(sid), n);
    }

    /**
     * `_execute_reverse_auction`: a session that is missing or not an
     * auction fails as an invalid state; otherwise the rounds run and the
     * session completes with every offer received.
     */
    method Execute(sid: string) returns (r: CoordinatorResult, ghost n: nat, ghost got: seq<Offer>)
      requires sm.Valid()
      modifies sm, this`sent
      ensures sm.Valid() && OnlySession(sm, sid)
      ensures sid !in old(sm.states) || !old(sm.states[sid]).AuctionSession? ==>
        r == NotFound(sid, ReverseAuction, InvalidStateReason) && sm.events == old(sm.events) && sm.states == old(sm.states)
      ensures sid in old(sm.states) && old(sm.states[sid]).AuctionSession? ==>
        var a, log0, log := old(sm.states[sid]).a, old(sm.Log(sid)), sm.Log(sid);
        var all := a.allOffers + got;
        && n == (if a.base.status == Active && a.totalRounds > 0 then a.totalRounds else 0)
        && |log| > |log0| && log[..|log0|] == log0
        && RoundNumbers(log[|log0|..], BiddingRoundStarted) == Numbered(n)
        && RoundNumbers(log[|log0|..], BiddingRoundEnded) == Numbered(n)
        && log[|log| - 1].eventType == SessionCompleted
        && log[|log| - 1].data == CompletionData(Completed, FinalReason(all), all, Untagged)
        && sid in sm.states && sm.states[sid].AuctionSession?
        && sm.states[sid].a.base.status == Completed && sm.states[sid].a.allOffers == all
        && r.status == Completed && r.sessionId == sid && r.message == FinalReason(all)
        && r.data.AuctionData? && r.data.allOffers == all && r.data.totalOffers == |all|
        && r.data.rounds == (if n > 0 then n else a.currentRound)
        && (r.data.success <==> all != [])
      ensures messenger.None? ==> got == []
    {
      if sid !in sm.states || !sm.states[sid].AuctionSession? {
        return NotFound(sid, ReverseAuction, InvalidStateReason), 0, [];
      }
      r, n, got := RunRounds(sid);
    }

    /**
     * `start`: `start_session`, whose exception propagates, then every
     * round. A stored session is active once started, so it runs all its
     * rounds, none when the count is not positive.
     */
    method Start(sid: string) returns (r: Result<CoordinatorResult>, ghost n: nat, ghost got: seq<Offer>)
      requires Ready(sm, sid)
      modifies sm, this`sent
      ensures Ready(sm, sid) && OnlySession(sm, sid)
      ensures sid !in old(sm.states) ==>
        r == Failure("ValueError: Session " + sid + " not found in StateManager")
        && sm.events == old(sm.events) && sm.states == old(sm.states)
      ensures sid in old(sm.states) ==>
        var a, log0, log := old(sm.states[sid]).a, old(sm.Log(sid)), sm.Log(sid);
        var all := a.allOffers + got;
        && n == (if a.totalRounds > 0 then a.totalRounds else 0)
        && |log| > |log0| + 1 && log[..|log0|] == log0 && log[|log0|].eventType == ReverseAuctionStarted
        && RoundNumbers(log[|log0| + 1..], BiddingRoundStarted) == Numbered(n)
        && RoundNumbers(log[|log0| + 1..], BiddingRoundEnded) == Numbered(n)
        && log[|log| - 1].eventType == SessionCompleted
        && sid in sm.states && sm.states[sid].a.base.status == Completed && sm.states[sid].a.allOffers == all
        && r.Success? && r.value.status == Completed && r.value.message == FinalReason(all)
        && r.value.data.AuctionData? && r.value.data.allOffers == all
        && r.value.data.rounds == (if n > 0 then n else a.currentRound)
      ensures messenger.None? ==> got == []
    {
      var started := StartSession(sm, sid, Untagged);
      if started.Failure? {
        return Failure(started.error), 0, [];
      }
      ghost var log1 := sm.Log(sid);
      var result;
      result, n, got := Execute(sid);
      r := Success(result);
      StartedThenRounds(old(sm.Log(sid)), log1, sm.Log(sid));
    }

    /** `handle_message`, with no tag on the events it logs. */
    method HandleMessage(sid: string, m: ParsedMessage) returns (r: Result<Option<CoordinatorResult>>)
      requires Ready(sm, sid)
      modifies sm
      ensures Ready(sm, sid) && OnlySession(sm, sid)
      ensures sid !in old(sm.states) || old(sm.states[sid]).a.base.status != Active
              || (m.messageType == ActionMsg && m.action != JStr("cancel")) ==>
        r == Success(None) && sm.events == old(sm.events) && sm.states == old(sm.states)
      ensures sid in old(sm.states) && old(sm.states[sid]).a.base.status == Active ==>
        && sid in sm.states
        && MessageHandled(sid, m, Untagged, old(sm.states[sid]).a, old(sm.clock), old(sm.Log(sid)), sm.Log(sid), sm.states[sid].a, r)
    {
      r := AuctionSteps.HandleMessage(sm, sid, m, Untagged);
    }

    /** `cancel_session`: a stored session is cancelled by the user. */
    method CancelSession(sid: string) returns (cancelled: bool)
      requires Ready(sm, sid)
      modifies sm
      ensures Ready(sm, sid) && OnlySession(sm, sid)
      ensures cancelled <==> sid in old(sm.states)
      ensures !cancelled ==> sm.events == old(sm.events) && sm.states == old(sm.states)
      ensures cancelled ==>
        && |sm.Log(sid)| == |old(sm.Log(sid))| + 1
        && sm.Log(sid)[|old(sm.Log(sid))|].eventType == SessionCancelled
        && sm.Log(sid)[|old(sm.Log(sid))|].data == map["reason" := JStr(UserCancelReason)]
        && sid in sm.states && sm.states[sid].a.base.status == Cancelled
    {
      cancelled := AuctionSteps.Cancel(sm, sid, Untagged);
    }

    /** `get_session_status`: None unless the session is a stored auction. */
    function GetSessionStatus(sid: string): (r: Option<StatusReport>)
      reads sm
      ensures r.Some? <==> sid in sm.states && sm.states[sid].AuctionSession?
      ensures r.Some? ==>
        var a := sm.states[sid].a;
        r.value == StatusReport(sid, a.base.status, a.currentRound, a.totalRounds, |a.allOffers|)
    {
      Report(sid, sm.GetSession(sid))
    }
  }
}
