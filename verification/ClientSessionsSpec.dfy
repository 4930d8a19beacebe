/**
 How LocationAPIClientBase drives its session dictionary: a client id stands for one
 session of the location API, a tracking or a batching one. A call on the API is served
 later, in the order of the calls, and its response is matched not with the call but with
 the request at the front of a queue. The state has both sides: dictionary and queue of
 the client, and of the API the calls it has not served and the sessions that run.
 */
module ClientSessionsSpec {
  import opened Options
  import opened BiDictSpec

  datatype SessionMode = NoMode | OnFull | OnFix | OnTripCompleted

  datatype Entity = Entity(id: nat, trackingSession: nat, batchingSession: nat, sessionMode: SessionMode)

  const ZERO := Entity(0, 0, 0, NoMode)

  /**
   Requests by what their onResponse does to the dictionary. Those of tracking and of
   batching sessions differ in the callback only, and one for batched locations does no
   more than one for an update.
   */
  datatype RequestKind = StartRequest | StopRequest | UpdateRequest

  /** UpdateOp stands for an update of options and for a request for batched locations. */
  datatype Op = StartOp | StopOp | UpdateOp

  /** A call and the request queued with it; the stop of a session that an update leaves has none. */
  datatype Call = Call(op: Op, session: nat, batching: bool, request: Option<RequestKind>)

  /** used are the sessions handed out so far. */
  datatype State = State(
    dict: Dict<Entity>,
    queue: seq<RequestKind>,
    calls: seq<Call>,
    tracking: set<nat>,
    batching: set<nat>,
    used: set<nat>)

  const INIT := State(Empty(), [], [], {}, {}, {})

  // ---------- The client ----------

  function Ask(s: State, c: Call): State {
    s.(calls := s.calls + [c], queue := s.queue + if c.request.Some? then [c.request.value] else [])
  }

  function NewEntity(id: nat, mode: SessionMode, session: nat): Entity {
    if mode == OnFix then Entity(id, session, 0, mode) else Entity(id, 0, session, mode)
  }

  /** session is what the location API answers to startTracking or startBatching. */
  function Start(s: State, id: nat, mode: SessionMode, session: nat): State {
    if id in s.dict.forward then s
    else
      Ask(s.(dict := Set(s.dict, id, session, NewEntity(id, mode, session)), used := s.used + {session}),
          Call(StartOp, session, mode != OnFix, Some(StartRequest)))
  }

  function EntityOf(s: State, id: nat): Entity {
    ExtById(s.dict, id, ZERO).0
  }

  function SessionOf(entity: Entity): nat {
    if entity.sessionMode == OnFix then entity.trackingSession else entity.batchingSession
  }

  /** The entry stays until the response to the stop. */
  function Stop(s: State, id: nat): State {
    if id !in s.dict.forward then s
    else
      var entity := EntityOf(s, id);
      Ask(s, Call(StopOp, SessionOf(entity), entity.sessionMode != OnFix, Some(StopRequest)))
  }

  /** Whether an update of id turns a tracking session into a batching one or the other way. */
  predicate Switches(s: State, id: nat, mode: SessionMode) {
    (EntityOf(s, id).sessionMode == OnFix) != (mode == OnFix)
  }

  function Update(s: State, id: nat, mode: SessionMode, session: nat): State {
    if id !in s.dict.forward then s
    else
      var entity := EntityOf(s, id);
      if Switches(s, id, mode) then
        var s1 := Ask(s, Call(StopOp, SessionOf(entity), entity.sessionMode != OnFix, None));
        var s2 := Ask(s1, Call(StartOp, session, mode != OnFix, Some(UpdateRequest)));
        var renewed :=
          if mode == OnFix then entity.(trackingSession := session, batchingSession := 0, sessionMode := mode)
          else entity.(trackingSession := 0, batchingSession := session, sessionMode := mode);
        s2.(dict := Renewed(s.dict, id, session, renewed), used := s.used + {session})
      else
        Ask(s.(dict := Renewed(s.dict, id, SessionOf(entity), entity.(sessionMode := mode))),
            Call(UpdateOp, SessionOf(entity), mode != OnFix, Some(UpdateRequest)))
  }

  function Renewed(d: Dict<Entity>, id: nat, session: nat, entity: Entity): Dict<Entity> {
    Set(RmById(d, id), id, session, entity)
  }

  /** Only batching sessions have batched locations. */
  function GetBatched(s: State, id: nat): State {
    if id !in s.dict.forward || EntityOf(s, id).sessionMode == OnFix then s
    else Ask(s, Call(UpdateOp, EntityOf(s, id).batchingSession, true, Some(UpdateRequest)))
  }

  /** Any response about a known session pops the queue and is told to its front, whatever that was queued for. */
  function Respond(s: State, session: nat, ok: bool): State {
    if session !in s.dict.backward || s.queue == [] then s
    else
      var s1 := s.(queue := s.queue[1..]);
      if (s.queue[0] == StartRequest && !ok) || (s.queue[0] == StopRequest && ok)
      then s1.(dict := RmBySession(s.dict, session))
      else s1
  }

  // ---------- The location API ----------

  predicate Knows(tracking: set<nat>, batching: set<nat>, c: Call) {
    c.session in if c.batching then batching else tracking
  }

  function Begun(s: State, c: Call): State {
    if c.batching then s.(batching := s.batching + {c.session}) else s.(tracking := s.tracking + {c.session})
  }

  function Ended(s: State, c: Call): State {
    if c.batching then s.(batching := s.batching - {c.session}) else s.(tracking := s.tracking - {c.session})
  }

  /** The next call is served, and succeeds or fails. One about a session that does not run has no response. */
  function Serve(s: State, ok: bool): State
    requires s.calls != []
  {
    var c, s1 := s.calls[0], s.(calls := s.calls[1..]);
    if c.op == StartOp then Respond(if ok then Begun(s1, c) else s1, c.session, ok)
    else if !Knows(s.tracking, s.batching, c) then s1
    else Respond(if ok && c.op == StopOp then Ended(s1, c) else s1, c.session, ok)
  }

  /** A batching session ends by itself with its trip; only one of trip mode is the client's to forget. */
  function EndTrip(s: State, session: nat): State {
    var s' := s.(batching := s.batching - {session});
    if session in s.dict.backward && ExtBySession(s.dict, session, ZERO).sessionMode == OnTripCompleted
    then s'.(dict := RmBySession(s.dict, session))
    else s'
  }

  // ---------- Actions ----------

  datatype Action =
    | DoStart(id: nat, mode: SessionMode, session: nat)
    | DoStop(id: nat)
    | DoUpdate(id: nat, mode: SessionMode, session: nat)
    | DoGetBatched(id: nat)
    | DoServe(ok: bool)
    | DoEndTrip(session: nat)

  predicate Fresh(s: State, session: nat) {
    session > 0 && session !in s.used
  }

  ghost predicate UpdatePending(s: State, session: nat) {
    exists i :: 0 <= i < |s.calls| && s.calls[i].session == session && s.calls[i].op == UpdateOp
  }

  /** A trip ends only for a session of trip mode, as far as the API knows its mode. */
  ghost predicate Enabled(s: State, a: Action) {
    match a
    case DoStart(_, _, session) => Fresh(s, session)
    case DoUpdate(_, _, session) => Fresh(s, session)
    case DoServe(_) => s.calls != []
    case DoEndTrip(session) =>
      && session in s.batching
      && (session in s.dict.ext && s.dict.ext[session].sessionMode != OnTripCompleted ==> UpdatePending(s, session))
    case _ => true
  }

  function Next(s: State, a: Action): State {
    match a
    case DoStart(id, mode, session) => Start(s, id, mode, session)
    case DoStop(id) => Stop(s, id)
    case DoUpdate(id, mode, session) => Update(s, id, mode, session)
    case DoGetBatched(id) => GetBatched(s, id)
    case DoServe(ok) => if s.calls == [] then s else Serve(s, ok)
    case DoEndTrip(session) => EndTrip(s, session)
  }

  // ---------- What care it takes ----------

  /** The session runs, and nothing but updates and requests for locations is unanswered about it. */
  ghost predicate Settled(s: State, session: nat) {
    && (session in s.tracking || session in s.batching)
    && forall i :: 0 <= i < |s.calls| && s.calls[i].session == session ==> s.calls[i].op == UpdateOp
  }

  /** No request about the session is unanswered. */
  ghost predicate Answered(s: State, session: nat) {
    forall i :: 0 <= i < |s.calls| && s.calls[i].session == session ==> s.calls[i].request.None?
  }

  /**
   A client takes care not to ask anything of an id whose start or stop is unanswered or
   whose start failed, and to switch an id only when nothing is unanswered about it. The
   API is kind: it does not refuse to stop a session that was switched away, and ends no
   trip about which a request is under way.
   */
  ghost predicate Careful(s: State, a: Action) {
    match a
    case DoStart(_, _, _) => true
    case DoStop(id) => id in s.dict.forward ==> Settled(s, s.dict.forward[id])
    case DoUpdate(id, mode, _) =>
      id in s.dict.forward ==>
        if Switches(s, id, mode) then Answered(s, s.dict.forward[id]) else Settled(s, s.dict.forward[id])
    case DoGetBatched(id) =>
      id in s.dict.forward && EntityOf(s, id).sessionMode != OnFix ==> Settled(s, s.dict.forward[id])
    case DoServe(ok) => ok || s.calls == [] || s.calls[0].request.Some? || !Knows(s.tracking, s.batching, s.calls[0])
    case DoEndTrip(session) => Answered(s, session)
  }

  /** A session runs that no id stands for, and no stop of it is under way: nobody can stop it any more. */
  ghost predicate Leaks(s: State) {
    exists x :: (x in s.tracking || x in s.batching) && x !in s.dict.backward && !StopPending(s.calls, x)
  }

  ghost predicate StopPending(calls: seq<Call>, session: nat) {
    exists i :: 0 <= i < |calls| && calls[i].session == session && calls[i].op == StopOp
  }

  function RunFrom(s: State, actions: seq<Action>): State
    decreases |actions|
  {
    if actions == [] then s else RunFrom(Next(s, actions[0]), actions[1..])
  }

  ghost predicate AllCareful(s: State, actions: seq<Action>)
    decreases |actions|
  {
    actions == []
    || (Enabled(s, actions[0]) && Careful(s, actions[0]) && AllCareful(Next(s, actions[0]), actions[1..]))
  }

  // ---------- The law ----------

  /** What is kept with a session is about that session, of the one kind its mode says, and its client id. */
  ghost predicate Fits(d: Dict<Entity>) {
    forall session :: session in d.ext ==>
      && session in d.backward
      && d.ext[session] == NewEntity(d.backward[session], d.ext[session].sessionMode, session)
  }

  /** All sessions there are have been handed out. */
  ghost predicate Owned(s: State) {
    && 0 !in s.used && s.tracking !! s.batching
    && s.dict.backward.Keys <= s.used && s.tracking <= s.used && s.batching <= s.used
    && forall i :: 0 <= i < |s.calls| ==> s.calls[i].session in s.used
  }

  /**
   A call with a request is about a known session of its kind, which runs unless it is a
   start; one without stops a forgotten session.
   */
  ghost predicate CallFits(d: Dict<Entity>, tracking: set<nat>, batching: set<nat>, c: Call) {
    match c.request
    case None => c.op == StopOp && c.session !in d.backward
    case Some(r) =>
      && c.session in d.ext && (c.batching <==> d.ext[c.session].sessionMode != OnFix)
      && match c.op
         case StartOp => r != StopRequest && c.session !in tracking && c.session !in batching
         case StopOp => r == StopRequest && Knows(tracking, batching, c)
         case UpdateOp => r == UpdateRequest && Knows(tracking, batching, c)
  }

  ghost predicate CallsFit(d: Dict<Entity>, tracking: set<nat>, batching: set<nat>, calls: seq<Call>) {
    forall i :: 0 <= i < |calls| ==> CallFits(d, tracking, batching, calls[i])
  }

  /** Before another call about the same session there are only updates. */
  ghost predicate Apart(calls: seq<Call>) {
    forall i, j :: 0 <= i < j < |calls| && calls[i].session == calls[j].session ==>
      calls[i].op == UpdateOp && calls[i].request.Some? && calls[j].op != StartOp && calls[j].request.Some?
  }

  function Requests(calls: seq<Call>): seq<RequestKind> {
    if calls == [] then []
    else (if calls[0].request.Some? then [calls[0].request.value] else []) + Requests(calls[1..])
  }

  /** A running session is in the dictionary, under a mode of its kind, or its stop is under way. */
  ghost predicate Accounted(d: Dict<Entity>, calls: seq<Call>, running: set<nat>, batching: bool) {
    forall x :: x in running ==>
      || (x in d.ext && (batching <==> d.ext[x].sessionMode != OnFix))
      || (x !in d.backward && Call(StopOp, x, batching, None) in calls)
  }

  ghost predicate Inv(s: State) {
    && Lawful(s.dict) && Fits(s.dict) && Owned(s)
    && CallsFit(s.dict, s.tracking, s.batching, s.calls) && Apart(s.calls)
    && s.queue == Requests(s.calls)
    && Accounted(s.dict, s.calls, s.tracking, false) && Accounted(s.dict, s.calls, s.batching, true)
  }

  lemma InvNeverLeaks(s: State)
    requires Inv(s)
    ensures !Leaks(s)
  {
    forall x | (x in s.tracking || x in s.batching) && x !in s.dict.backward ensures StopPending(s.calls, x) {
      var c := Call(StopOp, x, x !in s.tracking, None);
      assert c in s.calls;
    }
  }

  // ---------- Facts ----------

  lemma {:induction false} RequestsSnoc(calls: seq<Call>, c: Call)
    ensures Requests(calls + [c]) == Requests(calls) + if c.request.Some? then [c.request.value] else []
  {
    var last := if c.request.Some? then [c.request.value] else [];
    if calls == [] {
      assert [] + [c] == [c] && [c][1..] == [];
      assert last + [] == [] + last;
    } else {
      var all := calls + [c];
      assert all[0] == calls[0] && all[1..] == calls[1..] + [c];
      RequestsSnoc(calls[1..], c);
      Assoc(if calls[0].request.Some? then [calls[0].request.value] else [], Requests(calls[1..]), last);
    }
  }

  lemma Assoc<T>(a: seq<T>, b: seq<T>, c: seq<T>)
    ensures (a + b) + c == a + (b + c)
  {
  }

  /** What is known of a known id's entry. */
  lemma EntryIs(s: State, id: nat)
    requires Lawful(s.dict) && Fits(s.dict) && id in s.dict.forward
    ensures var session, entity := s.dict.forward[id], EntityOf(s, id);
            && session > 0 && session in s.dict.backward && s.dict.backward[session] == id
            && session in s.dict.ext && entity == s.dict.ext[session] == NewEntity(id, entity.sessionMode, session)
            && SessionOf(entity) == session
  {
  }

  /** What renewing an entry makes of the dictionary, under the session it has or a new one. */
  lemma RenewedIs(d: Dict<Entity>, id: nat, session: nat, mode: SessionMode)
    requires Lawful(d) && Fits(d) && id in d.forward
    requires session > 0 && (session == d.forward[id] || session !in d.backward)
    ensures var d', was := Renewed(d, id, session, NewEntity(id, mode, session)), d.forward[id];
            && Lawful(d') && Fits(d')
            && d' == Dict(d.forward[id := session], (d.backward - {was})[session := id],
                          (d.ext - {was})[session := NewEntity(id, mode, session)])
  {
    RmKeepsIff(d, id, d.forward[id]);
    SetKeepsIff(RmById(d, id), id, session, NewEntity(id, mode, session));
    var d' := Renewed(d, id, session, NewEntity(id, mode, session));
    assert d'.forward == d.forward[id := session];
  }

  lemma SetFits(d: Dict<Entity>, id: nat, session: nat, mode: SessionMode)
    requires Lawful(d) && Fits(d) && FreshPair(d, id, session) && session > 0
    ensures Lawful(Set(d, id, session, NewEntity(id, mode, session)))
    ensures Fits(Set(d, id, session, NewEntity(id, mode, session)))
  {
    SetKeepsIff(d, id, session, NewEntity(id, mode, session));
  }

  lemma RemoveFits(d: Dict<Entity>, session: nat)
    requires Lawful(d) && Fits(d) && session in d.backward
    ensures Lawful(RmBySession(d, session)) && Fits(RmBySession(d, session))
    ensures RmBySession(d, session) == Dict(d.forward - {d.backward[session]}, d.backward - {session},
      d.ext - {session})
  {
    RmKeepsIff(d, d.backward[session], session);
  }

  /** Two dictionaries say the same about all sessions but x. */
  ghost predicate SameBut(d: Dict<Entity>, d': Dict<Entity>, x: nat) {
    && (forall y :: y != x ==> (y in d'.backward <==> y in d.backward) && (y in d'.ext <==> y in d.ext))
    && (forall y :: y != x && y in d.ext && y in d'.ext ==> d'.ext[y] == d.ext[y])
  }

  ghost predicate NoneAbout(calls: seq<Call>, x: nat) {
    forall i :: 0 <= i < |calls| ==> calls[i].session != x
  }

  /** What changes about a session that no call is about does not matter to the calls. */
  lemma OthersFit(d: Dict<Entity>, d': Dict<Entity>, tracking: set<nat>, tracking': set<nat>,
                  batching: set<nat>, batching': set<nat>, calls: seq<Call>, x: nat)
    requires CallsFit(d, tracking, batching, calls) && NoneAbout(calls, x) && SameBut(d, d', x)
    requires tracking - {x} == tracking' - {x} && batching - {x} == batching' - {x}
    ensures CallsFit(d', tracking', batching', calls)
  {
    forall i | 0 <= i < |calls| ensures CallFits(d', tracking', batching', calls[i]) {
      var y := calls[i].session;
      assert CallFits(d, tracking, batching, calls[i]);
      assert y in tracking <==> y in tracking - {x};
      assert y in tracking' <==> y in tracking' - {x};
      assert y in batching <==> y in batching - {x};
      assert y in batching' <==> y in batching' - {x};
    }
  }

  lemma OthersAccounted(d: Dict<Entity>, d': Dict<Entity>, calls: seq<Call>, calls': seq<Call>,
                        running: set<nat>, running': set<nat>, batching: bool, x: nat)
    requires Accounted(d, calls, running, batching) && SameBut(d, d', x)
    requires running - {x} == running' - {x}
    requires forall y :: y != x && Call(StopOp, y, batching, None) in calls ==>
      Call(StopOp, y, batching, None) in calls'
    requires x in running' ==> x in d'.ext && (batching <==> d'.ext[x].sessionMode != OnFix)
    ensures Accounted(d', calls', running', batching)
  {
    forall y | y in running' && y != x
      ensures || (y in d'.ext && (batching <==> d'.ext[y].sessionMode != OnFix))
              || (y !in d'.backward && Call(StopOp, y, batching, None) in calls')
    {
      assert y in running' - {x};
    }
  }

  lemma AskedFit(d: Dict<Entity>, tracking: set<nat>, batching: set<nat>, calls: seq<Call>, c: Call)
    requires CallsFit(d, tracking, batching, calls) && CallFits(d, tracking, batching, c) && Apart(calls)
    requires forall i :: 0 <= i < |calls| && calls[i].session == c.session ==>
      calls[i].op == UpdateOp && calls[i].request.Some? && c.op != StartOp && c.request.Some?
    ensures CallsFit(d, tracking, batching, calls + [c]) && Apart(calls + [c])
  {
  }

  // ---------- What careful actions keep ----------

  lemma StartKeeps(s: State, id: nat, mode: SessionMode, session: nat)
    requires Inv(s) && Fresh(s, session)
    ensures Inv(Start(s, id, mode, session))
  {
    if id !in s.dict.forward {
      var d', c := Set(s.dict, id, session, NewEntity(id, mode, session)),
        Call(StartOp, session, mode != OnFix, Some(StartRequest));
      SetFits(s.dict, id, session, mode);
      OthersFit(s.dict, d', s.tracking, s.tracking, s.batching, s.batching, s.calls, session);
      AskedFit(d', s.tracking, s.batching, s.calls, c);
      RequestsSnoc(s.calls, c);
      OthersAccounted(s.dict, d', s.calls, s.calls + [c], s.tracking, s.tracking, false, session);
      OthersAccounted(s.dict, d', s.calls, s.calls + [c], s.batching, s.batching, true, session);
    }
  }

  /** Any call about a settled session, for which a request is queued. */
  lemma AskKeeps(s: State, c: Call)
    requires Inv(s) && Settled(s, c.session) && c.session in s.dict.ext
    requires c.batching <==> s.dict.ext[c.session].sessionMode != OnFix
    requires (c.op == StopOp && c.request == Some(StopRequest)) ||
      (c.op == UpdateOp && c.request == Some(UpdateRequest))
    ensures Inv(Ask(s, c))
  {
    assert Knows(s.tracking, s.batching, c) by {
      assert s.tracking !! s.batching;
    }
    forall i | 0 <= i < |s.calls| && s.calls[i].session == c.session ensures s.calls[i].request.Some? {
      assert CallFits(s.dict, s.tracking, s.batching, s.calls[i]);
    }
    AskedFit(s.dict, s.tracking, s.batching, s.calls, c);
    RequestsSnoc(s.calls, c);
    OthersAccounted(s.dict, s.dict, s.calls, s.calls + [c], s.tracking, s.tracking, false, 0);
    OthersAccounted(s.dict, s.dict, s.calls, s.calls + [c], s.batching, s.batching, true, 0);
  }

  lemma StopKeeps(s: State, id: nat)
    requires Inv(s) && Careful(s, DoStop(id))
    ensures Inv(Stop(s, id))
  {
    if id in s.dict.forward {
      EntryIs(s, id);
      AskKeeps(s, Call(StopOp, s.dict.forward[id], EntityOf(s, id).sessionMode != OnFix, Some(StopRequest)));
    }
  }

  lemma GetBatchedKeeps(s: State, id: nat)
    requires Inv(s) && Careful(s, DoGetBatched(id))
    ensures Inv(GetBatched(s, id))
  {
    if id in s.dict.forward && EntityOf(s, id).sessionMode != OnFix {
      EntryIs(s, id);
      AskKeeps(s, Call(UpdateOp, s.dict.forward[id], true, Some(UpdateRequest)));
    }
  }

  /** A change of mode within its kind. */
  lemma SameKindKeeps(s: State, id: nat, mode: SessionMode)
    requires Inv(s) && id in s.dict.forward && !Switches(s, id, mode)
    ensures Inv(s.(dict := Renewed(s.dict, id, s.dict.forward[id], NewEntity(id, mode, s.dict.forward[id]))))
  {
    var x := s.dict.forward[id];
    EntryIs(s, id);
    RenewedIs(s.dict, id, x, mode);
    var d' := Renewed(s.dict, id, x, NewEntity(id, mode, x));
    assert d'.backward == s.dict.backward;
    SameKindFits(s.dict, d', s.tracking, s.batching, s.calls);
  }

  /** Two dictionaries with the same sessions, of the same kinds. */
  ghost predicate SameKinds(d: Dict<Entity>, d': Dict<Entity>) {
    && d'.backward == d.backward && (forall x :: x in d'.ext <==> x in d.ext)
    && (forall x :: x in d.ext && x in d'.ext ==> (d'.ext[x].sessionMode == OnFix <==> d.ext[x].sessionMode == OnFix))
  }

  lemma SameKindFits(d: Dict<Entity>, d': Dict<Entity>, tracking: set<nat>, batching: set<nat>, calls: seq<Call>)
    requires SameKinds(d, d') && CallsFit(d, tracking, batching, calls)
    requires Accounted(d, calls, tracking, false) && Accounted(d, calls, batching, true)
    ensures CallsFit(d', tracking, batching, calls)
    ensures Accounted(d', calls, tracking, false) && Accounted(d', calls, batching, true)
  {
    forall i | 0 <= i < |calls| ensures CallFits(d', tracking, batching, calls[i]) {
      assert CallFits(d, tracking, batching, calls[i]);
    }
  }

  lemma SwitchKeeps(s: State, id: nat, mode: SessionMode, session: nat)
    requires Inv(s) && Fresh(s, session) && id in s.dict.forward && Switches(s, id, mode)
    requires Answered(s, s.dict.forward[id])
    ensures Inv(Update(s, id, mode, session))
  {
    var was := s.dict.forward[id];
    var stop := Call(StopOp, was, mode == OnFix, None);
    var start := Call(StartOp, session, mode != OnFix, Some(UpdateRequest));
    EntryIs(s, id);
    RenewedIs(s.dict, id, session, mode);
    SwitchIs(s, id, mode, session);
    var d' := Renewed(s.dict, id, session, NewEntity(id, mode, session));
    SwitchedKeeps(s, d', was, stop, start);
  }

  /** The state once session was is forgotten and start.session has taken its place. */
  lemma SwitchedKeeps(s: State, d': Dict<Entity>, was: nat, stop: Call, start: Call)
    requires Inv(s) && was in s.dict.ext && Answered(s, was) && Fresh(s, start.session)
    requires start == Call(StartOp, start.session, start.batching, Some(UpdateRequest))
    requires stop == Call(StopOp, was, s.dict.ext[was].sessionMode != OnFix, None)
    requires Lawful(d') && Fits(d') && was !in d'.backward
    requires start.session in d'.ext && (start.batching <==> d'.ext[start.session].sessionMode != OnFix)
    requires forall x :: x != was && x != start.session ==>
      (x in d'.backward <==> x in s.dict.backward) && (x in d'.ext <==> x in s.dict.ext)
    requires forall x :: x in d'.ext && x in s.dict.ext && x != start.session ==> d'.ext[x] == s.dict.ext[x]
    ensures Inv(s.(dict := d', calls := s.calls + [stop] + [start], queue := s.queue + [UpdateRequest],
                   used := s.used + {start.session}))
  {
    SwitchFits(s, d', was, stop, start);
    SwitchQueues(s.calls, stop, start);
    SwitchAccounts(s, d', s.tracking, was, stop, start, false);
    SwitchAccounts(s, d', s.batching, was, stop, start, true);
  }

  lemma SwitchQueues(calls: seq<Call>, stop: Call, start: Call)
    requires stop.request == None && start.request == Some(UpdateRequest)
    ensures Requests(calls + [stop] + [start]) == Requests(calls) + [UpdateRequest]
  {
    RequestsSnoc(calls, stop);
    RequestsSnoc(calls + [stop], start);
  }

  lemma SwitchFits(s: State, d': Dict<Entity>, was: nat, stop: Call, start: Call)
    requires CallsFit(s.dict, s.tracking, s.batching, s.calls) && Apart(s.calls) && Owned(s)
    requires was in s.dict.backward && Answered(s, was)
    requires start.session !in s.used && start.op == StartOp && start.request == Some(UpdateRequest)
    requires stop.session == was && stop.op == StopOp && stop.request == None && was !in d'.backward
    requires start.session in d'.ext && (start.batching <==> d'.ext[start.session].sessionMode != OnFix)
    requires forall x :: x != was && x != start.session ==>
      (x in d'.backward <==> x in s.dict.backward) && (x in d'.ext <==> x in s.dict.ext)
    requires forall x :: x in d'.ext && x in s.dict.ext && x != start.session ==> d'.ext[x] == s.dict.ext[x]
    ensures CallsFit(d', s.tracking, s.batching, s.calls + [stop] + [start]) && Apart(s.calls + [stop] + [start])
  {
    forall i | 0 <= i < |s.calls|
      ensures s.calls[i].session != was && CallFits(d', s.tracking, s.batching, s.calls[i])
    {
      assert CallFits(s.dict, s.tracking, s.batching, s.calls[i]);
    }
    AskedFit(d', s.tracking, s.batching, s.calls, stop);
    AskedFit(d', s.tracking, s.batching, s.calls + [stop], start);
  }

  lemma SwitchIs(s: State, id: nat, mode: SessionMode, session: nat)
    requires Lawful(s.dict) && Fits(s.dict) && id in s.dict.forward && Switches(s, id, mode)
    ensures var was := s.dict.forward[id];
            Update(s, id, mode, session) == s.(
              dict := Renewed(s.dict, id, session, NewEntity(id, mode, session)),
              queue := s.queue + [UpdateRequest],
              calls := s.calls + [Call(StopOp, was, mode == OnFix, None)]
                               + [Call(StartOp, session, mode != OnFix, Some(UpdateRequest))],
              used := s.used + {session})
  {
    EntryIs(s, id);
    assert s.queue + [] == s.queue;
  }

  lemma SwitchAccounts(s: State, d': Dict<Entity>, running: set<nat>, was: nat, stop: Call, start: Call, batching: bool)
    requires Accounted(s.dict, s.calls, running, batching) && start.session !in running
    requires was in running ==> stop == Call(StopOp, was, batching, None) && was !in d'.backward
    requires forall x :: x != was && x != start.session ==>
      (x in d'.backward <==> x in s.dict.backward) && (x in d'.ext <==> x in s.dict.ext)
    requires forall x :: x in d'.ext && x in s.dict.ext && x != start.session ==> d'.ext[x] == s.dict.ext[x]
    ensures Accounted(d', s.calls + [stop] + [start], running, batching)
  {
    var calls' := s.calls + [stop] + [start];
    assert calls'[|s.calls|] == stop;
    assert forall c :: c in s.calls ==> c in calls';
  }

  lemma UpdateKeeps(s: State, id: nat, mode: SessionMode, session: nat)
    requires Inv(s) && Fresh(s, session) && Careful(s, DoUpdate(id, mode, session))
    ensures Inv(Update(s, id, mode, session))
  {
    if id in s.dict.forward {
      if Switches(s, id, mode) {
        SwitchKeeps(s, id, mode, session);
      } else {
        var x := s.dict.forward[id];
        var s' := s.(dict := Renewed(s.dict, id, x, NewEntity(id, mode, x)));
        EntryIs(s, id);
        RenewedIs(s.dict, id, x, mode);
        SameKindKeeps(s, id, mode);
        AskKeeps(s', Call(UpdateOp, x, mode != OnFix, Some(UpdateRequest)));
      }
    }
  }

  /** What is left of the law when the first call is taken. */
  lemma TailFits(s: State)
    requires Inv(s) && s.calls != []
    ensures var c, tail := s.calls[0], s.calls[1..];
            && CallFits(s.dict, s.tracking, s.batching, c)
            && CallsFit(s.dict, s.tracking, s.batching, tail) && Apart(tail)
            && (c.op != UpdateOp ==> NoneAbout(tail, c.session))
            && s.queue == (if c.request.Some? then [c.request.value] else []) + Requests(tail)
            && forall m :: m in s.calls && m != c ==> m in tail
  {
    var tail := s.calls[1..];
    assert forall i :: 0 <= i < |tail| ==> tail[i] == s.calls[i + 1];
  }

  lemma ServeUpdateKeeps(s: State, ok: bool)
    requires Inv(s) && s.calls != [] && s.calls[0].op == UpdateOp
    ensures Inv(Serve(s, ok))
  {
    var c, tail := s.calls[0], s.calls[1..];
    TailFits(s);
    assert Serve(s, ok) == s.(calls := tail, queue := Requests(tail));
    OthersAccounted(s.dict, s.dict, s.calls, tail, s.tracking, s.tracking, false, 0);
    OthersAccounted(s.dict, s.dict, s.calls, tail, s.batching, s.batching, true, 0);
  }

  /** The state once a start or stop of session x is served: d' is the dictionary then. */
  lemma ServedKeeps(s: State, d': Dict<Entity>, tracking': set<nat>, batching': set<nat>)
    requires Inv(s) && s.calls != [] && s.calls[0].op != UpdateOp
    requires var x := s.calls[0].session;
             && Lawful(d') && Fits(d') && SameBut(s.dict, d', x) && d'.backward.Keys <= s.dict.backward.Keys
             && s.tracking - {x} == tracking' - {x} && s.batching - {x} == batching' - {x} && tracking' !! batching'
             && (x in tracking' ==> x in d'.ext && d'.ext[x].sessionMode == OnFix)
             && (x in batching' ==> x in d'.ext && d'.ext[x].sessionMode != OnFix)
    ensures Inv(s.(dict := d', tracking := tracking', batching := batching',
                   calls := s.calls[1..], queue := Requests(s.calls[1..])))
  {
    var x, tail := s.calls[0].session, s.calls[1..];
    TailFits(s);
    OthersFit(s.dict, d', s.tracking, tracking', s.batching, batching', tail, x);
    OthersAccounted(s.dict, d', s.calls, tail, s.tracking, tracking', false, x);
    OthersAccounted(s.dict, d', s.calls, tail, s.batching, batching', true, x);
    assert tracking' <= (tracking' - {x}) + {x} && batching' <= (batching' - {x}) + {x};
  }

  lemma ServeStartKeeps(s: State, ok: bool)
    requires Inv(s) && s.calls != [] && s.calls[0].op == StartOp
    ensures Inv(Serve(s, ok))
  {
    var c, tail := s.calls[0], s.calls[1..];
    TailFits(s);
    assert s.queue[0] == c.request.value && s.queue[1..] == Requests(tail);
    if ok {
      var s' := Begun(s, c);
      assert Serve(s, ok) == s'.(calls := tail, queue := Requests(tail));
      ServedKeeps(s, s.dict, s'.tracking, s'.batching);
    } else if c.request == Some(StartRequest) {
      RemoveFits(s.dict, c.session);
      ServedKeeps(s, RmBySession(s.dict, c.session), s.tracking, s.batching);
    } else {
      ServedKeeps(s, s.dict, s.tracking, s.batching);
    }
  }

  lemma ServeStopKeeps(s: State, ok: bool)
    requires Inv(s) && s.calls != [] && s.calls[0].op == StopOp && Careful(s, DoServe(ok))
    ensures Inv(Serve(s, ok))
  {
    var c, tail := s.calls[0], s.calls[1..];
    TailFits(s);
    var s' := Ended(s, c);
    if c.request.None? {
      assert s.queue == Requests(tail);
      ForgottenAccounted(s, c);
      if Knows(s.tracking, s.batching, c) {
        ServedKeeps(s, s.dict, s'.tracking, s'.batching);
      } else {
        ServedKeeps(s, s.dict, s.tracking, s.batching);
      }
    } else {
      assert s.queue[0] == StopRequest && s.queue[1..] == Requests(tail);
      if ok {
        RemoveFits(s.dict, c.session);
        ServedKeeps(s, RmBySession(s.dict, c.session), s'.tracking, s'.batching);
      } else {
        ServedKeeps(s, s.dict, s.tracking, s.batching);
      }
    }
  }

  /** A forgotten session runs only as the kind its stop is for. */
  lemma ForgottenAccounted(s: State, c: Call)
    requires Inv(s) && s.calls != [] && c == s.calls[0] && c.op == StopOp && c.request.None?
    ensures c.session in s.tracking ==> !c.batching
    ensures c.session in s.batching ==> c.batching
  {
    assert CallFits(s.dict, s.tracking, s.batching, c);
    if c.session in s.tracking {
      var i :| 0 <= i < |s.calls| && s.calls[i] == Call(StopOp, c.session, false, None);
    }
    if c.session in s.batching {
      var i :| 0 <= i < |s.calls| && s.calls[i] == Call(StopOp, c.session, true, None);
    }
  }

  lemma EndTripFits(s: State, session: nat)
    requires Lawful(s.dict) && Fits(s.dict)
    ensures Lawful(EndTrip(s, session).dict) && Fits(EndTrip(s, session).dict)
  {
    if session in s.dict.backward {
      RemoveFits(s.dict, session);
    }
  }

  lemma EndTripKeeps(s: State, session: nat)
    requires Inv(s) && Enabled(s, DoEndTrip(session)) && Careful(s, DoEndTrip(session))
    ensures Inv(EndTrip(s, session))
  {
    var s' := EndTrip(s, session);
    EndTripFits(s, session);
    forall i | 0 <= i < |s.calls|
      ensures (session in s.dict.backward ==> s.calls[i].session != session) &&
        CallFits(s'.dict, s'.tracking, s'.batching, s.calls[i])
    {
      assert CallFits(s.dict, s.tracking, s.batching, s.calls[i]);
    }
    OthersAccounted(s.dict, s'.dict, s.calls, s.calls, s.tracking, s.tracking, false, session);
    OthersAccounted(s.dict, s'.dict, s.calls, s.calls, s.batching, s'.batching, true, session);
  }

  lemma NextKeeps(s: State, a: Action)
    requires Inv(s) && Enabled(s, a) && Careful(s, a)
    ensures Inv(Next(s, a))
  {
    match a
    case DoStart(id, mode, session) => StartKeeps(s, id, mode, session);
    case DoStop(id) => StopKeeps(s, id);
    case DoUpdate(id, mode, session) => UpdateKeeps(s, id, mode, session);
    case DoGetBatched(id) => GetBatchedKeeps(s, id);
    case DoServe(ok) =>
      match s.calls[0].op {
        case StartOp => ServeStartKeeps(s, ok);
        case StopOp => ServeStopKeeps(s, ok);
        case UpdateOp => ServeUpdateKeeps(s, ok);
      }
    case DoEndTrip(session) => EndTripKeeps(s, session);
  }

  /** Whatever careful clients do, the law holds, and no session runs that nobody could stop. */
  lemma {:induction false} CarefulRunsKeep(s: State, actions: seq<Action>)
    requires Inv(s) && AllCareful(s, actions)
    ensures Inv(RunFrom(s, actions)) && !Leaks(RunFrom(s, actions))
    decreases |actions|
  {
    if actions == [] {
      InvNeverLeaks(s);
    } else {
      NextKeeps(s, actions[0]);
      CarefulRunsKeep(Next(s, actions[0]), actions[1..]);
    }
  }

  lemma RunsNeverLeak(actions: seq<Action>)
    requires AllCareful(INIT, actions)
    ensures Inv(RunFrom(INIT, actions)) && !Leaks(RunFrom(INIT, actions))
  {
    CarefulRunsKeep(INIT, actions);
  }

  // ---------- What each call comes to ----------

  /** An id that is in use is not started again; one that is not known is neither stopped nor updated. */
  lemma RefusedChangesNothing(s: State, id: nat, mode: SessionMode, session: nat)
    ensures id in s.dict.forward ==> Start(s, id, mode, session) == s
    ensures id !in s.dict.forward ==>
      Stop(s, id) == s && Update(s, id, mode, session) == s && GetBatched(s, id) == s
  {
  }

  ghost function Running(s: State, batching: bool): set<nat> {
    if batching then s.batching else s.tracking
  }

  lemma OneCall(c: Call, r: RequestKind)
    ensures [c][0] == c && [c][1..] == [] && [r][0] == r && [r][1..] == []
    ensures [] + [c] == [c] && [] + [r] == [r]
  {
  }

  lemma StartIs(s: State, id: nat, mode: SessionMode, session: nat, ok: bool)
    requires s.calls == [] && s.queue == [] && session > 0 && id !in s.dict.forward
    ensures var d, s' := Set(s.dict, id, session, NewEntity(id, mode, session)), Serve(Start(s, id, mode, session), ok);
            && s'.calls == [] && s'.queue == [] && s'.dict == (if ok then d else RmBySession(d, session))
            && Running(s', mode != OnFix) == Running(s, mode != OnFix) + (if ok then {session} else {})
            && Running(s', mode == OnFix) == Running(s, mode == OnFix)
  {
    OneCall(Call(StartOp, session, mode != OnFix, Some(StartRequest)), StartRequest);
  }

  /** Setting a fresh pair and removing it again. */
  lemma SetThenRemove(d: Dict<Entity>, id: nat, session: nat, mode: SessionMode)
    requires Lawful(d) && Fits(d) && FreshPair(d, id, session) && session > 0
    ensures RmBySession(Set(d, id, session, NewEntity(id, mode, session)), session) == d
  {
    var d' := Set(d, id, session, NewEntity(id, mode, session));
    SetFits(d, id, session, mode);
    RemoveFits(d', session);
    assert d'.forward - {id} == d.forward && d'.backward - {session} == d.backward && d'.ext - {session} == d.ext;
  }

  /**
   A start of a free id, once served, has the session run that the API handed out, of the
   kind asked for, and the id stand for it; if the API refuses, the id is free again and
   all is as before.
   */
  lemma StartServed(s: State, id: nat, mode: SessionMode, session: nat, ok: bool)
    requires Inv(s) && s.calls == [] && Fresh(s, session) && id !in s.dict.forward
    ensures var s' := Serve(Start(s, id, mode, session), ok);
            && s'.calls == [] && s'.queue == []
            && (ok ==>
                  && s'.dict.forward == s.dict.forward[id := session]
                  && session in s'.dict.ext && s'.dict.ext[session].sessionMode == mode)
            && (!ok ==> s'.dict == s.dict)
            && Running(s', mode != OnFix) == Running(s, mode != OnFix) + (if ok then {session} else {})
            && Running(s', mode == OnFix) == Running(s, mode == OnFix)
  {
    StartIs(s, id, mode, session, ok);
    SetThenRemove(s.dict, id, session, mode);
  }

  /**
   A stop, once served, ends the session of the id, whichever kind it is, and no other,
   and the id is free again; if the API refuses, all is as before.
   */
  lemma StopEnds(s: State, id: nat, ok: bool)
    requires Inv(s) && s.calls == [] && Careful(s, DoStop(id)) && id in s.dict.forward
    ensures var session, s' := s.dict.forward[id], Serve(Stop(s, id), ok);
            && s'.calls == [] && s'.queue == []
            && (ok ==>
                  && s'.tracking == s.tracking - {session} && s'.batching == s.batching - {session}
                  && s'.dict.forward == s.dict.forward - {id})
            && (!ok ==> s'.dict == s.dict && s'.tracking == s.tracking && s'.batching == s.batching)
  {
    var x := s.dict.forward[id];
    EntryIs(s, id);
    RemoveFits(s.dict, x);
    var c := Call(StopOp, x, EntityOf(s, id).sessionMode != OnFix, Some(StopRequest));
    OneCall(c, StopRequest);
    var s1 := Stop(s, id);
    assert s1.calls == [c] && s1.queue == [StopRequest];
    assert Accounted(s.dict, s.calls, s.tracking, false) && Accounted(s.dict, s.calls, s.batching, true);
  }

  /**
   After an update the id stands for a session of the kind asked for: the same one, which
   the API is told to update, or when the kind changes the new one, and then the API is
   told to stop the old one, which is forgotten, and to start the new one.
   */
  lemma UpdateSwitches(s: State, id: nat, mode: SessionMode, session: nat)
    requires Inv(s) && Fresh(s, session) && id in s.dict.forward
    ensures var was, s' := s.dict.forward[id], Update(s, id, mode, session);
            && s'.dict.forward == s.dict.forward[id := if Switches(s, id, mode) then session else was]
            && s'.dict.forward[id] in s'.dict.ext && s'.dict.ext[s'.dict.forward[id]].sessionMode == mode
            && (Switches(s, id, mode) ==> was !in s'.dict.backward)
            && s'.calls == s.calls + (if Switches(s, id, mode)
                                      then [Call(StopOp, was, mode == OnFix, None)]
                                           + [Call(StartOp, session, mode != OnFix, Some(UpdateRequest))]
                                      else [Call(UpdateOp, was, mode != OnFix, Some(UpdateRequest))])
            && s'.queue == s.queue + [UpdateRequest]
            && s'.tracking == s.tracking && s'.batching == s.batching
  {
    var was := s.dict.forward[id];
    EntryIs(s, id);
    RenewedIs(s.dict, id, if Switches(s, id, mode) then session else was, mode);
    if Switches(s, id, mode) {
      SwitchIs(s, id, mode, session);
      Assoc(s.calls, [Call(StopOp, was, mode == OnFix, None)],
            [Call(StartOp, session, mode != OnFix, Some(UpdateRequest))]);
    }
  }

  /** The stop of a forgotten session is served, which nobody is told of. */
  lemma ForgottenStops(s: State, stop: Call, start: Call)
    requires s.calls == [stop, start] && stop.op == StopOp && stop.session !in s.dict.backward
    ensures var s' := Serve(s, true);
            && s'.calls == [start] && s'.queue == s.queue && s'.dict == s.dict
            && Running(s', stop.batching) == Running(s, stop.batching) - {stop.session}
            && Running(s', !stop.batching) == Running(s, !stop.batching)
  {
    assert [stop, start][1..] == [start];
  }

  /** The start of a known session is served, with a request that only reports. */
  lemma RenewedStarts(s: State, start: Call, ok: bool)
    requires s.calls == [start] && start.op == StartOp && start.session in s.dict.backward && s.queue == [UpdateRequest]
    ensures var s' := Serve(s, ok);
            && s'.calls == [] && s'.queue == [] && s'.dict == s.dict
            && Running(s', start.batching) == Running(s, start.batching) + (if ok then {start.session} else {})
            && Running(s', !start.batching) == Running(s, !start.batching)
  {
    OneCall(start, UpdateRequest);
  }

  /**
   With nothing unanswered, a switch, once its stop is served and then its start, has the
   old session replaced by the new one, which runs if the API began it.
   */
  lemma SwitchServed(s: State, id: nat, mode: SessionMode, session: nat, ok: bool)
    requires Inv(s) && s.calls == [] && Fresh(s, session) && id in s.dict.forward && Switches(s, id, mode)
    ensures var was, s1 := s.dict.forward[id], Update(s, id, mode, session);
            && |s1.calls| == 2 && |Serve(s1, true).calls| == 1
            && var s' := Serve(Serve(s1, true), ok);
            && s'.calls == [] && s'.queue == []
            && s'.dict == s1.dict
            && Running(s', mode == OnFix) == Running(s, mode == OnFix) - {was}
            && Running(s', mode != OnFix) == Running(s, mode != OnFix) + (if ok then {session} else {})
  {
    var was, s1 := s.dict.forward[id], Update(s, id, mode, session);
    var stop := Call(StopOp, was, mode == OnFix, None);
    var start := Call(StartOp, session, mode != OnFix, Some(UpdateRequest));
    SwitchIs(s, id, mode, session);
    EntryIs(s, id);
    RenewedIs(s.dict, id, session, mode);
    assert s1.calls == [stop, start] && s1.queue == [UpdateRequest];
    ForgottenStops(s1, stop, start);
    RenewedStarts(Serve(s1, true), start, ok);
  }

  /** Batched locations are asked of a batching session only. */
  lemma GetBatchedAsks(s: State, id: nat)
    requires Inv(s) && id in s.dict.forward
    ensures var was := s.dict.forward[id];
            GetBatched(s, id) == if s.dict.ext[was].sessionMode == OnFix then s
                                 else s.(calls := s.calls + [Call(UpdateOp, was, true, Some(UpdateRequest))],
                                         queue := s.queue + [UpdateRequest])
  {
    EntryIs(s, id);
  }
}
