/**
 * The event store: a table of session states, an append-only event log
 * per session, and an index from conversation contexts to sessions.
 * `EmitEvent` is the path by which state changes: it appends one event
 * and folds it into the session's state, so every live state is the
 * replay of its log from the state it was created with.
 */
module StateManagement {
  import opened Wrappers
  import opened Json
  import opened Types
  import opened Events
  import opened SessionStates
  import Text

  /** The keyword arguments `create_session` passes to the state class. */
  datatype SessionOptions = SessionOptions(
    maxRounds: Option<int>,
    timeoutSeconds: Option<int>,
    totalRounds: Option<int>,
    roundDuration: Option<int>,
    expectedParticipants: Option<int>)

  const NoOptions := SessionOptions(None, None, None, None, None)

  /** Keyword arguments the chosen state class does not declare raise TypeError. */
  predicate OptionsFit(t: SessionType, o: SessionOptions) {
    match t
    case Negotiation => o.totalRounds.None? && o.roundDuration.None? && o.expectedParticipants.None?
    case ReverseAuction => o.maxRounds.None? && o.timeoutSeconds.None?
  }

  /** The state a new session starts from, before its SESSION_CREATED event. */
  function InitialView(sid: string, ctx: Option<string>, t: SessionType, role: AgentRole, item: Item,
                       o: SessionOptions, now: Timestamp): SessionView
  {
    match t
    case Negotiation => NegotiationSession(InitialNegotiation(sid, role, item, ctx, o.maxRounds, o.timeoutSeconds, now))
    case ReverseAuction => AuctionSession(InitialAuction(sid, role, item, ctx, o.totalRounds.GetOr(1),
                                                         o.roundDuration.GetOr(60), o.expectedParticipants.GetOr(0), now))
  }

  /** The payload of SESSION_CREATED. */
  function CreatedData(ctx: Option<string>, t: SessionType, role: AgentRole, item: Item): Object {
    map["context_id" := OptStr(ctx), "session_type" := JStr(t.Value()), "role" := JStr(role.Value()),
        "item_id" := JStr(item.id), "item_name" := JStr(item.name)]
  }

  /** Folding a log, oldest event first, each at its own timestamp. */
  ghost function Replay(init: SessionView, log: seq<Event>): SessionView {
    if |log| == 0 then init
    else
      var last := log[|log| - 1];
      Fold(Replay(init, log[..|log| - 1]), last, last.timestamp)
  }

  lemma ReplayAppend(init: SessionView, log: seq<Event>, e: Event)
    ensures Replay(init, log + [e]) == Fold(Replay(init, log), e, e.timestamp)
  {
    assert (log + [e])[..|log|] == log;
  }

  lemma ReplayStep(init: SessionView, log: seq<Event>, e: Event, before: SessionView, after: SessionView)
    requires before == Replay(init, log) && after == Fold(before, e, e.timestamp)
    ensures after == Replay(init, log + [e])
  {
    ReplayAppend(init, log, e);
  }

  /** Every state reachable by replay keeps the fold invariants. */
  lemma {:induction false} ReplayWellFormed(init: SessionView, log: seq<Event>)
    requires WellFormed(init)
    ensures WellFormed(Replay(init, log))
  {
    if log != [] {
      ReplayWellFormed(init, log[..|log| - 1]);
      FoldPreservesWellFormed(Replay(init, log[..|log| - 1]), log[|log| - 1], log[|log| - 1].timestamp);
    }
  }

  /** Replay never changes the kind of session. */
  lemma {:induction false} ReplayKeepsKind(init: SessionView, log: seq<Event>)
    ensures Replay(init, log).NegotiationSession? == init.NegotiationSession?
  {
    if log != [] {
      ReplayKeepsKind(init, log[..|log| - 1]);
    }
  }

  /** `get_events` filters, applied to one event. An empty context means no context filter. */
  predicate Selected(e: Event, eventType: Option<EventType>, after: Option<Timestamp>, contextId: Option<string>) {
    && (eventType.Some? ==> e.eventType == eventType.value)
    && (after.Some? ==> e.timestamp > after.value)
    && (contextId.Some? && contextId.value != "" ==> e.contextId == contextId)
  }

  function FilterEvents(log: seq<Event>, eventType: Option<EventType>, after: Option<Timestamp>,
                        contextId: Option<string>): (r: seq<Event>)
    ensures |r| <= |log|
    ensures forall e :: e in r <==> e in log && Selected(e, eventType, after, contextId)
  {
    if log == [] then []
    else
      var rest := FilterEvents(log[1..], eventType, after, contextId);
      assert forall e :: e in log <==> e == log[0] || e in log[1..];
      if Selected(log[0], eventType, after, contextId) then [log[0]] + rest else rest
  }

  /** Filtering keeps the log's order: it distributes over concatenation. */
  lemma {:induction false} FilterEventsAppend(a: seq<Event>, b: seq<Event>, eventType: Option<EventType>,
                                              after: Option<Timestamp>, contextId: Option<string>)
    ensures FilterEvents(a + b, eventType, after, contextId)
         == FilterEvents(a, eventType, after, contextId) + FilterEvents(b, eventType, after, contextId)
  {
    if a == [] {
      assert a + b == b;
    } else {
      assert (a + b)[0] == a[0];
      assert (a + b)[1..] == a[1..] + b;
      FilterEventsAppend(a[1..], b, eventType, after, contextId);
    }
  }

  /** The index keys of a list of contexts. */
  function KeysOf(cs: seq<string>): set<Option<string>> {
    set c | c in cs :: Some(c)
  }

  /** Drops the index entry of every context in `contexts`, one context at a time. */
  method RemoveContexts(index: map<Option<string>, string>, contexts: seq<string>)
    returns (r: map<Option<string>, string>)
    ensures r == index - KeysOf(contexts)
  {
    r := index;
    var i := 0;
    while i < |contexts|
      invariant 0 <= i <= |contexts|
      invariant r == index - KeysOf(contexts[..i])
    {
      assert contexts[..i + 1][..i] == contexts[..i];
      r := r - {Some(contexts[i])};
      i := i + 1;
    }
    assert contexts[..i] == contexts;
  }

  /** One stored session: its live state is the replay of its log from its initial state. */
  ghost predicate Consistent(init: SessionView, log: seq<Event>, live: SessionView) {
    WellFormed(init) && live == Replay(init, log)
  }

  /** The store invariant, over the store's three tables. */
  ghost predicate StoreValid(states: map<string, SessionView>, events: map<string, seq<Event>>,
                             initial: map<string, SessionView>)
  {
    && states.Keys <= events.Keys
    && states.Keys == initial.Keys
    && forall sid {:trigger Consistent(initial[sid], events[sid], states[sid])} | sid in states ::
         Consistent(initial[sid], events[sid], states[sid])
  }

  /** Logging an event and folding it into its session's state keeps the invariant. */
  lemma EmitKeepsValid(states: map<string, SessionView>, events: map<string, seq<Event>>,
                       initial: map<string, SessionView>, sid: string, e: Event)
    requires StoreValid(states, events, initial)
    ensures var log := if sid in events then events[sid] else [];
      StoreValid(if sid in states then states[sid := Fold(states[sid], e, e.timestamp)] else states,
                 events[sid := log + [e]], initial)
  {
    var log := if sid in events then events[sid] else [];
    var states' := if sid in states then states[sid := Fold(states[sid], e, e.timestamp)] else states;
    var events' := events[sid := log + [e]];
    forall s | s in states'
      ensures Consistent(initial[s], events'[s], states'[s])
    {
      assert Consistent(initial[s], events[s], states[s]);
      if s == sid {
        ReplayAppend(initial[s], log, e);
      }
    }
  }

  /** Dropping sessions keeps the invariant. */
  lemma RemoveKeepsValid(states: map<string, SessionView>, events: map<string, seq<Event>>,
                         initial: map<string, SessionView>, gone: set<string>)
    requires StoreValid(states, events, initial)
    ensures StoreValid(states - gone, events - gone, initial - gone)
  {
    forall s | s in states - gone
      ensures Consistent((initial - gone)[s], (events - gone)[s], (states - gone)[s])
    {
      assert Consistent(initial[s], events[s], states[s]);
    }
  }

  /** A new session whose log is empty and whose state is its initial state keeps the invariant. */
  lemma InsertKeepsValid(states: map<string, SessionView>, events: map<string, seq<Event>>,
                         initial: map<string, SessionView>, sid: string, init: SessionView)
    requires StoreValid(states, events, initial) && WellFormed(init)
    ensures StoreValid(states[sid := init], events[sid := []], initial[sid := init])
  {
    var states', events', initial' := states[sid := init], events[sid := []], initial[sid := init];
    forall s | s in states'
      ensures Consistent(initial'[s], events'[s], states'[s])
    {
      if s != sid {
        assert Consistent(initial[s], events[s], states[s]);
      }
    }
  }

  /** Writing a key twice leaves the second value. */
  lemma UpdateTwice<K, V>(m: map<K, V>, k: K, a: V, b: V)
    ensures m[k := a][k := b] == m[k := b]
  {
  }

  /** Removing keys in two steps removes their union. */
  lemma UpdateRemove<K, V>(m: map<K, V>, k: K, v: V)
    ensures m[k := v] - {k} == m - {k}
    ensures k in m ==> m[k := v].Keys == m.Keys
  {
  }

  lemma RemoveTwice<K, V>(m: map<K, V>, a: set<K>, b: set<K>)
    ensures m - a - b == m - (a + b)
  {
  }

  /** The index keys of every context of the sessions in `doomed`. */
  function SessionContextKeys(states: map<string, SessionView>, doomed: set<string>): set<Option<string>> {
    set s, c | s in doomed && s in states && c in states[s].Base().AllContexts() :: Some(c)
  }

  /** The tables after deleting the sessions `removed` from the tables `states0`, `events0`, `index0`. */
  ghost predicate RemovedFrom(states0: map<string, SessionView>, events0: map<string, seq<Event>>,
                              index0: map<Option<string>, string>, removed: set<string>,
                              states: map<string, SessionView>, events: map<string, seq<Event>>,
                              index: map<Option<string>, string>)
  {
    && states == states0 - removed
    && events == events0 - removed
    && index == index0 - SessionContextKeys(states0, removed)
  }

  /** Deleting one more stored session extends `RemovedFrom` by that session. */
  lemma RemoveOneMore(states0: map<string, SessionView>, events0: map<string, seq<Event>>,
                      index0: map<Option<string>, string>, removed: set<string>,
                      states: map<string, SessionView>, events: map<string, seq<Event>>,
                      index: map<Option<string>, string>, s: string)
    requires RemovedFrom(states0, events0, index0, removed, states, events, index)
    requires s in states
    ensures RemovedFrom(states0, events0, index0, removed + {s}, states - {s}, events - {s},
                        index - KeysOf(states[s].Base().AllContexts()))
  {
    RemoveTwice(states0, removed, {s});
    RemoveTwice(events0, removed, {s});
    assert SessionContextKeys(states0, removed + {s})
        == SessionContextKeys(states0, removed) + KeysOf(states[s].Base().AllContexts());
    RemoveTwice(index0, SessionContextKeys(states0, removed), KeysOf(states[s].Base().AllContexts()));
  }

  class StateManager {
    var states: map<string, SessionView>
    var events: map<string, seq<Event>>
    /** Keys are Python context ids, including None, which `create_session` maps too. */
    var contextToSession: map<Option<string>, string>
    /** The reading `datetime.now()` gives. */
    var clock: Timestamp
    /** Identifiers drawn so far; the next event id is `evt-` + HexId(minted). */
    var minted: nat
    /** The state each stored session was created with, before its first event. */
    ghost var initial: map<string, SessionView>

    /** Every state has a log, and is the replay of that log from its initial state. */
    ghost predicate Valid()
      reads this
    {
      StoreValid(states, events, initial)
    }

    constructor ()
      ensures Valid()
      ensures states == map[] && events == map[] && contextToSession == map[] && clock == 0 && minted == 0
    {
      states := map[];
      events := map[];
      contextToSession := map[];
      clock := 0;
      minted := 0;
      initial := map[];
    }

    function Log(sid: string): seq<Event>
      reads this
    {
      if sid in events then events[sid] else []
    }

    /** Every stored state keeps the fold invariants. */
    lemma LiveWellFormed(sid: string)
      requires Valid() && sid in states
      ensures WellFormed(states[sid])
    {
      assert Consistent(initial[sid], events[sid], states[sid]);
      ReplayWellFormed(initial[sid], events[sid]);
    }

    /** The clock moves forward. */
    method Tick(dt: nat)
      modifies this`clock
      ensures clock == old(clock) + dt
    {
      clock := clock + dt;
    }

    /**
     * `emit_event`: creates the event, appends it to the session's log
     * (creating the log if needed) and folds it into the state when one
     * exists. `err` is the exception the fold raises; the event is logged
     * either way.
     */
    method EmitEvent(sid: string, eventType: EventType, data: Object, contextId: Option<string>,
                     metadata: Option<Object>) returns (e: Event, err: Option<string>)
      requires Valid()
      modifies this
      ensures Valid()
      ensures e == EventCreate(sid, eventType, Some(data), contextId, metadata, Text.HexId(old(minted)), old(clock))
      ensures events == old(events)[sid := old(Log(sid)) + [e]]
      ensures states == if sid in old(states) then old(states)[sid := Fold(old(states)[sid], e, e.timestamp)]
                        else old(states)
      ensures err == if sid in old(states) then FoldError(old(states)[sid], e, e.timestamp) else None
      ensures initial == old(initial) && contextToSession == old(contextToSession)
      ensures clock == old(clock) && minted == old(minted) + 1
      ensures Log(sid) == old(Log(sid)) + [e]
      ensures events - {sid} == old(events) - {sid} && states - {sid} == old(states) - {sid}
      ensures states.Keys == old(states).Keys
    {
      ghost var states0, events0 := states, events;
      e := EventCreate(sid, eventType, Some(data), contextId, metadata, Text.HexId(minted), clock);
      EmitKeepsValid(states, events, initial, sid, e);
      minted := minted + 1;
      var log := if sid in events then events[sid] else [];
      events := events[sid := log + [e]];
      err := None;
      if sid in states {
        err := FoldError(states[sid], e, e.timestamp);
        states := states[sid := Fold(states[sid], e, e.timestamp)];
        UpdateRemove(states0, sid, states[sid]);
      }
      UpdateRemove(events0, sid, events[sid]);
    }

    /**
     * `create_session`: an unregistered session type (None here) raises
     * ValueError and an undeclared keyword raises TypeError. Otherwise the
     * new state replaces any earlier one under `sid`, the primary context
     * (even None) maps to the session, and the log restarts with exactly
     * one SESSION_CREATED event.
     */
    method CreateSession(sid: string, contextId: Option<string>, sessionType: Option<SessionType>, role: AgentRole,
                         item: Item, options: SessionOptions) returns (r: Result<SessionView>)
      requires Valid()
      modifies this
      ensures Valid()
      ensures r.Success? <==> sessionType.Some? && OptionsFit(sessionType.value, options)
      ensures r.Failure? ==> states == old(states) && events == old(events) && contextToSession == old(contextToSession)
      ensures r.Success? ==>
        && states == old(states)[sid := r.value]
        && contextToSession == old(contextToSession)[contextId := sid]
        && initial == old(initial)[sid := InitialView(sid, contextId, sessionType.value, role, item, options, old(clock))]
        && |events[sid]| == 1
        && events == old(events)[sid := events[sid]]
        && events[sid][0].eventType == SessionCreated
        && events[sid][0].data == CreatedData(contextId, sessionType.value, role, item)
        && events[sid][0].contextId == contextId && events[sid][0].timestamp == old(clock)
        && r.value == Fold(initial[sid], events[sid][0], old(clock))
    {
      if sessionType.None? {
        return Failure("ValueError: Unknown session type");
      }
      var t := sessionType.value;
      if !OptionsFit(t, options) {
        return Failure("TypeError: unexpected keyword argument");
      }
      var init := InitialView(sid, contextId, t, role, item, options, clock);
      InsertKeepsValid(states, events, initial, sid, init);
      states := states[sid := init];
      initial := initial[sid := init];
      contextToSession := contextToSession[contextId := sid];
      events := events[sid := []];
      ghost var states0, events0 := old(states), old(events);
      var e, _ := EmitEvent(sid, SessionCreated, CreatedData(contextId, t, role, item), contextId, None);
      UpdateTwice(states0, sid, init, states[sid]);
      UpdateTwice(events0, sid, [], events[sid]);
      r := Success(states[sid]);
    }

    /** `get_session`. */
    function GetSession(sid: string): (r: Option<SessionView>)
      reads this
      ensures r.Some? <==> sid in states
      ensures r.Some? ==> r.value == states[sid]
    {
      if sid in states then Some(states[sid]) else None
    }

    /** `get_session_by_context`: an unmapped context, or one mapped to an empty id, gives None. */
    function GetSessionByContext(contextId: Option<string>): (r: Option<SessionView>)
      reads this
      ensures r.Some? <==> contextId in contextToSession && contextToSession[contextId] != ""
                           && contextToSession[contextId] in states
      ensures r.Some? ==> r.value == states[contextToSession[contextId]]
    {
      if contextId in contextToSession && contextToSession[contextId] != "" then GetSession(contextToSession[contextId])
      else None
    }

    /** `add_context_mapping`: overwrites any earlier mapping of the context. */
    method AddContextMapping(contextId: string, sid: string)
      requires Valid()
      modifies this`contextToSession
      ensures Valid()
      ensures contextToSession == old(contextToSession)[Some(contextId) := sid]
    {
      contextToSession := contextToSession[Some(contextId) := sid];
    }

    /** The context keys `delete_session(sid)` removes. */
    function ContextKeys(sid: string): set<Option<string>>
      reads this
    {
      if sid in states then KeysOf(states[sid].Base().AllContexts()) else {}
    }

    /**
     * `delete_session`: nothing for an unknown id; otherwise the state,
     * the log and the mapping of every context in `get_all_contexts`
     * go, whichever session those contexts currently map to.
     */
    method DeleteSession(sid: string)
      requires Valid()
      modifies this
      ensures Valid()
      ensures states == old(states) - {sid}
      ensures events == if sid in old(states) then old(events) - {sid} else old(events)
      ensures contextToSession == old(contextToSession) - old(ContextKeys(sid))
      ensures initial == old(initial) - {sid}
      ensures clock == old(clock) && minted == old(minted)
    {
      if sid !in states {
        return;
      }
      var contexts := states[sid].Base().AllContexts();
      RemoveKeepsValid(states, events, initial, {sid});
      contextToSession := RemoveContexts(contextToSession, contexts);
      states := states - {sid};
      events := events - {sid};
      initial := initial - {sid};
    }

    /** Whether a state passes `list_sessions`' filters; an empty status means no status filter. */
    predicate Listed(v: SessionView, status: Option<string>, sessionType: Option<SessionType>) {
      && (status.Some? && status.value != "" ==> v.Base().status.Name() == status.value)
      && (sessionType.Some? ==> v.Base().sessionType == sessionType.value)
    }

    /** `list_sessions`: the stored states that pass the filters given, by session id. */
    function ListSessions(status: Option<string>, sessionType: Option<SessionType>): (r: map<string, SessionView>)
      reads this
      ensures r.Keys <= states.Keys
      ensures forall s | s in r :: r[s] == states[s]
      ensures forall s | s in states :: s in r <==> Listed(states[s], status, sessionType)
    {
      map s | s in states && Listed(states[s], status, sessionType) :: states[s]
    }

    /** `get_events`: the session's log restricted by the filters given, in log order. */
    function GetEvents(sid: string, eventType: Option<EventType>, after: Option<Timestamp>, contextId: Option<string>)
      : (r: seq<Event>)
      reads this
      ensures sid !in events ==> r == []
      ensures forall e :: e in r <==> e in Log(sid) && Selected(e, eventType, after, contextId)
    {
      FilterEvents(Log(sid), eventType, after, contextId)
    }

    /** The sessions `cleanup_old_sessions` removes: terminal and last updated before the cutoff. */
    function Expired(cutoff: int): set<string>
      reads this
    {
      set s | s in states && states[s].Base().status.IsTerminal() && states[s].Base().updatedAt < cutoff
    }

    /** The context keys removed with a set of sessions. */
    function ContextKeysOf(doomed: set<string>): set<Option<string>>
      reads this
    {
      set s, c | s in doomed && s in states && c in states[s].Base().AllContexts() :: Some(c)
    }

    /**
     * `cleanup_old_sessions`: deletes exactly the terminal sessions last
     * updated more than `maxAgeHours` before now; every other session
     * stays, however old.
     */
    method CleanupOldSessions(maxAgeHours: int)
      requires Valid()
      modifies this
      ensures Valid()
      ensures var doomed := old(Expired(clock - maxAgeHours * 3600));
        RemovedFrom(old(states), old(events), old(contextToSession), doomed, states, events, contextToSession)
    {
      var cutoff := clock - maxAgeHours * 3600;
      var doomed := Expired(cutoff);
      ghost var all := doomed;
      while doomed != {}
        invariant Valid()
        invariant doomed <= all
        invariant forall s | s in doomed :: s in states
        invariant RemovedFrom(old(states), old(events), old(contextToSession), all - doomed,
                              states, events, contextToSession)
        decreases |doomed|
      {
        var s :| s in doomed;
        RemoveOneMore(old(states), old(events), old(contextToSession), all - doomed,
                      states, events, contextToSession, s);
        DeleteSession(s);
        assert all - (doomed - {s}) == (all - doomed) + {s};
        doomed := doomed - {s};
      }
    }
  }
}
