/**
 Just how much care a client of LocationAPIClientBase has to take. A request that is
 left at the front of the queue, its call never answered or answered in vain, takes the
 response of a later one; careful as everyone may be from then on, a session can leak.
 */
module ClientLeaks {
  import opened Options
  import opened BiDictSpec
  import opened ClientSessionsSpec

  /** Careful actions alone can lead from s to a leak. */
  ghost predicate CanLeak(s: State) {
    exists actions :: AllCareful(s, actions) && Leaks(RunFrom(s, actions))
  }

  lemma LeaksCan(s: State)
    requires Leaks(s)
    ensures CanLeak(s)
  {
    assert AllCareful(s, []) && RunFrom(s, []) == s;
  }

  lemma StepCanLeak(s: State, a: Action)
    requires Enabled(s, a) && Careful(s, a) && CanLeak(Next(s, a))
    ensures CanLeak(s)
  {
    var actions :| AllCareful(Next(s, a), actions) && Leaks(RunFrom(Next(s, a), actions));
    assert ([a] + actions)[1..] == actions;
    assert AllCareful(s, [a] + actions) && RunFrom(s, [a] + actions) == RunFrom(Next(s, a), actions);
  }

  // ---------- What holds whatever clients do ----------

  /** A call without a request stops a forgotten session; no fewer requests are queued than there are calls with one. */
  ghost predicate Sane(s: State) {
    && Lawful(s.dict) && Fits(s.dict) && Owned(s) && Unasked(s.dict, s.calls)
    && |s.queue| >= |Requests(s.calls)|
  }

  ghost predicate Unasked(d: Dict<Entity>, calls: seq<Call>) {
    forall i :: 0 <= i < |calls| && calls[i].request.None? ==> calls[i].op == StopOp && calls[i].session !in d.backward
  }

  /** The requests that are queued and can have no call. */
  function Excess(s: State): int {
    |s.queue| - |Requests(s.calls)|
  }

  lemma InvIsSane(s: State)
    requires Inv(s)
    ensures Sane(s) && Excess(s) == 0
  {
    forall i | 0 <= i < |s.calls| && s.calls[i].request.None?
      ensures s.calls[i].op == StopOp && s.calls[i].session !in s.dict.backward
    {
      assert CallFits(s.dict, s.tracking, s.batching, s.calls[i]);
    }
  }

  /** Serving the next call so that starts fail and all else succeeds; a careful step. */
  function Served(s: State): State
    requires s.calls != []
  {
    Serve(s, s.calls[0].op != StartOp)
  }

  /** The next call is served without a request being taken from the queue. */
  ghost predicate InVain(s: State) {
    && s.calls != [] && s.calls[0].request.Some?
    && (|| s.calls[0].session !in s.dict.backward
        || (s.calls[0].op != StartOp && !Knows(s.tracking, s.batching, s.calls[0])))
  }

  lemma RespondIsSane(s: State, session: nat, ok: bool)
    requires Lawful(s.dict) && Fits(s.dict) && Owned(s) && Unasked(s.dict, s.calls)
    ensures var s' := Respond(s, session, ok);
            && Lawful(s'.dict) && Fits(s'.dict) && Owned(s') && Unasked(s'.dict, s'.calls)
            && s'.dict.backward.Keys <= s.dict.backward.Keys
            && |s'.queue| >= |s.queue| - 1 && (session !in s.dict.backward ==> s' == s)
  {
    if session in s.dict.backward {
      RemoveFits(s.dict, session);
    }
  }

  lemma EndedIsOwned(s: State, c: Call)
    requires Owned(s)
    ensures Owned(Ended(s, c))
  {
  }

  /** Serving keeps all that, makes the excess no smaller, and larger when it was in vain. */
  lemma ServedIsSane(s: State)
    requires Sane(s) && s.calls != []
    ensures Sane(Served(s)) && Served(s).calls == s.calls[1..] && Served(s).dict.backward.Keys <= s.dict.backward.Keys
    ensures Excess(Served(s)) >= Excess(s) && (InVain(s) ==> Excess(Served(s)) > Excess(s))
  {
    var c, s1 := s.calls[0], s.(calls := s.calls[1..]);
    assert Unasked(s1.dict, s1.calls);
    if c.op == StopOp && Knows(s.tracking, s.batching, c) {
      EndedIsOwned(s1, c);
      RespondIsSane(Ended(s1, c), c.session, true);
    } else {
      RespondIsSane(s1, c.session, c.op != StartOp);
    }
  }

  lemma ServeCanLeak(s: State)
    requires Sane(s) && s.calls != [] && CanLeak(Served(s))
    ensures CanLeak(s)
  {
    StepCanLeak(s, DoServe(s.calls[0].op != StartOp));
  }

  // ---------- A stale request leaks a session ----------

  ghost function MaxOf(used: set<nat>): (m: nat)
    ensures forall n :: n in used ==> n <= m
    decreases used
  {
    if used == {} then 0
    else
      var n :| n in used;
      var m := MaxOf(used - {n});
      assert forall k :: k in used ==> k == n || k in used - {n};
      if n > m then n else m
  }

  /** With nothing unanswered, a new tracking session is started, and begins. */
  ghost function Started(s: State, id: nat, session: nat): State {
    Next(Next(s, DoStart(id, OnFix, session)), DoServe(true))
  }

  lemma StartedIs(s: State, id: nat, session: nat)
    requires Sane(s) && s.calls == [] && s.queue != [] && id !in s.dict.forward && Fresh(s, session)
    ensures var d := Set(s.dict, id, session, NewEntity(id, OnFix, session));
            Started(s, id, session) == s.(
              dict := if s.queue[0] == StopRequest then RmBySession(d, session) else d,
              queue := s.queue[1..] + [StartRequest],
              tracking := s.tracking + {session},
              used := s.used + {session})
  {
    var c := Call(StartOp, session, false, Some(StartRequest));
    var s1 := Start(s, id, OnFix, session);
    assert s1.calls == [c] && [c][1..] == [];
    assert s1.queue[0] == s.queue[0] && s1.queue[1..] == s.queue[1..] + [StartRequest];
  }

  lemma StartedCanLeak(s: State, id: nat, session: nat)
    requires Fresh(s, session) && s.calls == [] && CanLeak(Started(s, id, session))
    ensures CanLeak(s)
  {
    var s1 := Next(s, DoStart(id, OnFix, session));
    assert s1.calls == [] ==> s1 == s;
    if s1.calls != [] {
      StepCanLeak(s1, DoServe(true));
      StepCanLeak(s, DoStart(id, OnFix, session));
    }
  }

  /** A stale stop request is taken for the response that the new session has begun. */
  lemma StaleStopLeaks(s: State, id: nat, session: nat)
    requires Sane(s) && s.calls == [] && s.queue != [] && s.queue[0] == StopRequest
    requires id !in s.dict.forward && Fresh(s, session)
    ensures CanLeak(s)
  {
    var d := Set(s.dict, id, session, NewEntity(id, OnFix, session));
    StartedIs(s, id, session);
    SetFits(s.dict, id, session, OnFix);
    RemoveFits(d, session);
    var s' := Started(s, id, session);
    assert session in s'.tracking && session !in s'.dict.backward && !StopPending(s'.calls, session);
    LeaksCan(s');
    StartedCanLeak(s, id, session);
  }

  /** The tracking session of id runs. */
  ghost predicate Tracks(s: State, id: nat) {
    id in s.dict.forward && s.dict.forward[id] in s.tracking && EntityOf(s, id).sessionMode == OnFix
  }

  /** A stale start request is taken for the response that an update of a running session has failed. */
  lemma StaleStartLeaks(s: State, id: nat)
    requires Sane(s) && s.calls == [] && s.queue != [] && s.queue[0] == StartRequest && Tracks(s, id)
    ensures CanLeak(s)
  {
    var x := s.dict.forward[id];
    EntryIs(s, id);
    RenewedIs(s.dict, id, x, OnFix);
    var c := Call(UpdateOp, x, false, Some(UpdateRequest));
    var d := Renewed(s.dict, id, x, NewEntity(id, OnFix, x));
    var n := MaxOf(s.used) + 1;
    var a := DoUpdate(id, OnFix, n);
    var s1 := Next(s, a);
    assert s1 == s.(dict := d, calls := [c], queue := s.queue + [UpdateRequest]);
    var s2 := Next(s1, DoServe(false));
    RemoveFits(d, x);
    assert [c][1..] == [];
    assert x in s2.tracking && x !in s2.dict.backward && !StopPending(s2.calls, x);
    LeaksCan(s2);
    StepCanLeak(s1, DoServe(false));
    StepCanLeak(s, a);
  }

  lemma StartedIsSane(s: State, id: nat, session: nat)
    requires Sane(s) && s.calls == [] && s.queue != [] && s.queue[0] != StopRequest
    requires id !in s.dict.forward && Fresh(s, session)
    ensures Sane(Started(s, id, session)) && Tracks(Started(s, id, session), id)
    ensures forall other :: Tracks(s, other) ==> Tracks(Started(s, id, session), other)
  {
    StartedIs(s, id, session);
    SetFits(s.dict, id, session, OnFix);
    var s' := Started(s, id, session);
    forall other | Tracks(s, other) ensures Tracks(s', other) {
      EntryIs(s, other);
    }
  }

  /** How many requests that only report are ahead of the first other one, or of all. */
  function Reports(queue: seq<RequestKind>): nat {
    if queue == [] || queue[0] != UpdateRequest then 0 else 1 + Reports(queue[1..])
  }

  lemma {:induction false} ReportsSnoc(queue: seq<RequestKind>)
    ensures Reports(queue + [StartRequest]) == Reports(queue)
  {
    if queue != [] {
      assert (queue + [StartRequest])[1..] == queue[1..] + [StartRequest];
      ReportsSnoc(queue[1..]);
    } else {
      assert (queue + [StartRequest])[0] == StartRequest;
    }
  }

  /** While a session runs, requests are started for until a stale one that does harm is at the front. */
  lemma {:induction false} StaleLeaksWhile(s: State, id: nat)
    requires Sane(s) && s.calls == [] && s.queue != [] && Tracks(s, id) && Reports(s.queue) < |s.queue|
    ensures CanLeak(s)
    decreases Reports(s.queue)
  {
    if s.queue[0] == StartRequest {
      StaleStartLeaks(s, id);
    } else {
      var newId, session := MaxOf(s.dict.forward.Keys) + 1, MaxOf(s.used) + 1;
      assert newId !in s.dict.forward.Keys;
      if s.queue[0] == StopRequest {
        StaleStopLeaks(s, newId, session);
      } else {
        StartedIs(s, newId, session);
        StartedIsSane(s, newId, session);
        ReportsSnoc(s.queue[1..]);
        StaleLeaksWhile(Started(s, newId, session), id);
        StartedCanLeak(s, newId, session);
      }
    }
  }

  lemma {:induction false} ReportsBounded(queue: seq<RequestKind>)
    ensures Reports(queue) <= |queue|
  {
    if queue != [] {
      ReportsBounded(queue[1..]);
    }
  }

  /** Any request left in the queue with nothing unanswered can make a session leak. */
  lemma StaleLeaks(s: State)
    requires Sane(s) && s.calls == [] && s.queue != []
    ensures CanLeak(s)
  {
    var id, session := MaxOf(s.dict.forward.Keys) + 1, MaxOf(s.used) + 1;
    assert id !in s.dict.forward.Keys;
    if s.queue[0] == StopRequest {
      StaleStopLeaks(s, id, session);
    } else {
      StartedIs(s, id, session);
      StartedIsSane(s, id, session);
      ReportsSnoc(s.queue[1..]);
      ReportsBounded(s.queue[1..]);
      StaleLeaksWhile(Started(s, id, session), id);
      StartedCanLeak(s, id, session);
    }
  }

  /** The same while calls are still under way. */
  lemma {:induction false} ExcessLeaks(s: State)
    requires Sane(s) && Excess(s) > 0
    ensures CanLeak(s)
    decreases |s.calls|
  {
    if s.calls == [] {
      StaleLeaks(s);
    } else {
      ServedIsSane(s);
      ExcessLeaks(Served(s));
      ServeCanLeak(s);
    }
  }

  // ---------- A call in vain leaves a stale request ----------

  /** The i-th call is about a forgotten session, or about one that will not run by then. */
  ghost predicate Doomed(s: State, i: nat) {
    && i < |s.calls| && s.calls[i].request.Some?
    && (|| s.calls[i].session !in s.dict.backward
        || (s.calls[i].op != StartOp
            && (!Knows(s.tracking, s.batching, s.calls[i]) || EndedBefore(s.calls, i))))
  }

  ghost predicate EndedBefore(calls: seq<Call>, i: nat)
    requires i < |calls|
  {
    exists j :: 0 <= j < i && calls[j].op == StopOp && calls[j].session == calls[i].session &&
      calls[j].batching == calls[i].batching
  }

  lemma DoomedStays(s: State, i: nat)
    requires Sane(s) && Doomed(s, i) && i > 0
    ensures Doomed(Served(s), i - 1)
  {
    var c, s' := s.calls[i], Served(s);
    ServedIsSane(s);
    assert s'.calls[i - 1] == c;
    if c.session in s.dict.backward && Knows(s.tracking, s.batching, c) {
      var j :| 0 <= j < i && s.calls[j].op == StopOp && s.calls[j].session == c.session &&
        s.calls[j].batching == c.batching;
      if j > 0 {
        assert s'.calls[j - 1] == s.calls[j];
      }
    }
  }

  lemma {:induction false} DoomedLeaks(s: State, i: nat)
    requires Sane(s) && Doomed(s, i)
    ensures CanLeak(s)
    decreases i
  {
    ServedIsSane(s);
    if i == 0 {
      ExcessLeaks(Served(s));
    } else {
      DoomedStays(s, i);
      DoomedLeaks(Served(s), i - 1);
    }
    ServeCanLeak(s);
  }

  // ---------- What every lack of care comes to ----------

  lemma AskIsSane(s: State, c: Call)
    requires Sane(s) && c.session in s.used && c.request.Some?
    ensures Sane(Ask(s, c))
  {
    RequestsSnoc(s.calls, c);
  }

  /** A call about an id's session that is not settled. */
  lemma UnsettledLeaks(s: State, s': State, c: Call)
    requires Inv(s) && c.session in s.dict.ext && !Settled(s, c.session)
    requires c.batching <==> s.dict.ext[c.session].sessionMode != OnFix
    requires c.op != StartOp && c.request.Some? && c.session in s'.dict.backward
    requires Sane(s') && s'.calls == s.calls + [c] && s'.tracking == s.tracking && s'.batching == s.batching
    ensures CanLeak(s')
  {
    var n := |s.calls|;
    if Knows(s.tracking, s.batching, c) {
      var i :| 0 <= i < n && s.calls[i].session == c.session && s.calls[i].op != UpdateOp;
      assert CallFits(s.dict, s.tracking, s.batching, s.calls[i]);
      assert s'.calls[i] == s.calls[i];
      assert EndedBefore(s'.calls, n);
    }
    DoomedLeaks(s', n);
  }

  lemma StopLeaks(s: State, id: nat)
    requires Inv(s) && !Careful(s, DoStop(id))
    ensures CanLeak(Stop(s, id))
  {
    var c := Call(StopOp, s.dict.forward[id], EntityOf(s, id).sessionMode != OnFix, Some(StopRequest));
    InvIsSane(s);
    EntryIs(s, id);
    AskIsSane(s, c);
    UnsettledLeaks(s, Ask(s, c), c);
  }

  lemma GetBatchedLeaks(s: State, id: nat)
    requires Inv(s) && !Careful(s, DoGetBatched(id))
    ensures CanLeak(GetBatched(s, id))
  {
    var c := Call(UpdateOp, s.dict.forward[id], true, Some(UpdateRequest));
    InvIsSane(s);
    EntryIs(s, id);
    AskIsSane(s, c);
    UnsettledLeaks(s, Ask(s, c), c);
  }

  lemma UpdateLeaks(s: State, id: nat, mode: SessionMode, session: nat)
    requires Inv(s) && Fresh(s, session) && id in s.dict.forward
    requires !Switches(s, id, mode) && !Settled(s, s.dict.forward[id])
    ensures CanLeak(Update(s, id, mode, session))
  {
    var x := s.dict.forward[id];
    var c := Call(UpdateOp, x, mode != OnFix, Some(UpdateRequest));
    EntryIs(s, id);
    RenewedIs(s.dict, id, x, mode);
    SameKindKeeps(s, id, mode);
    var s1 := s.(dict := Renewed(s.dict, id, x, NewEntity(id, mode, x)));
    InvIsSane(s1);
    AskIsSane(s1, c);
    UnsettledLeaks(s1, Ask(s1, c), c);
  }

  /** A switch forgets a session about which a request is unanswered. */
  lemma SwitchLeaks(s: State, id: nat, mode: SessionMode, session: nat)
    requires Inv(s) && Fresh(s, session) && id in s.dict.forward
    requires Switches(s, id, mode) && !Answered(s, s.dict.forward[id])
    ensures CanLeak(Update(s, id, mode, session))
  {
    var s', was := Update(s, id, mode, session), s.dict.forward[id];
    SwitchIsSane(s, id, mode, session);
    var i :| 0 <= i < |s.calls| && s.calls[i].session == was && s.calls[i].request.Some?;
    assert s'.calls[i] == s.calls[i];
    DoomedLeaks(s', i);
  }

  lemma SwitchIsSane(s: State, id: nat, mode: SessionMode, session: nat)
    requires Inv(s) && Fresh(s, session) && id in s.dict.forward && Switches(s, id, mode)
    ensures var s' := Update(s, id, mode, session);
            Sane(s') && s.dict.forward[id] !in s'.dict.backward && s.calls <= s'.calls
  {
    var was := s.dict.forward[id];
    InvIsSane(s);
    EntryIs(s, id);
    RenewedIs(s.dict, id, session, mode);
    SwitchIs(s, id, mode, session);
    var stop := Call(StopOp, was, mode == OnFix, None);
    RequestsSnoc(s.calls, stop);
    RequestsSnoc(s.calls + [stop], Call(StartOp, session, mode != OnFix, Some(UpdateRequest)));
  }

  /** The API refuses to stop a session that was switched away. */
  lemma RefusalLeaks(s: State)
    requires Inv(s) && s.calls != [] && !Careful(s, DoServe(false))
    ensures CanLeak(Serve(s, false))
  {
    var c, s' := s.calls[0], Serve(s, false);
    TailFits(s);
    assert s'.calls == s.calls[1..];
    assert c.session !in s'.dict.backward && !StopPending(s'.calls, c.session);
    LeaksCan(s');
  }

  /** A trip ends about which a request is unanswered. */
  lemma EndTripLeaks(s: State, session: nat)
    requires Inv(s) && session in s.batching && !Careful(s, DoEndTrip(session))
    ensures CanLeak(EndTrip(s, session))
  {
    var s' := EndTrip(s, session);
    InvIsSane(s);
    EndTripFits(s, session);
    var i :| 0 <= i < |s.calls| && s.calls[i].session == session && s.calls[i].request.Some?;
    assert CallFits(s.dict, s.tracking, s.batching, s.calls[i]);
    assert Sane(s');
    DoomedLeaks(s', i);
  }

  lemma CarelessLeaks(s: State, a: Action)
    requires Inv(s) && Enabled(s, a) && !Careful(s, a)
    ensures CanLeak(Next(s, a))
  {
    match a
    case DoStop(id) => StopLeaks(s, id);
    case DoGetBatched(id) => GetBatchedLeaks(s, id);
    case DoUpdate(id, mode, session) =>
      if Switches(s, id, mode) { SwitchLeaks(s, id, mode, session); } else { UpdateLeaks(s, id, mode, session); }
    case DoServe(_) => RefusalLeaks(s);
    case DoEndTrip(session) => EndTripLeaks(s, session);
    case DoStart(_, _, _) =>
  }

  /**
   After a careful run, an action is safe, that is, however carefully the run goes on no
   session leaks, exactly if it is careful itself. None of the conditions can be spared.
   */
  lemma SafeIffCareful(actions: seq<Action>, a: Action)
    requires AllCareful(INIT, actions) && Enabled(RunFrom(INIT, actions), a)
    ensures Careful(RunFrom(INIT, actions), a) <==> !CanLeak(Next(RunFrom(INIT, actions), a))
  {
    var s := RunFrom(INIT, actions);
    RunsNeverLeak(actions);
    if Careful(s, a) {
      NextKeeps(s, a);
      if more :| AllCareful(Next(s, a), more) && Leaks(RunFrom(Next(s, a), more)) {
        CarefulRunsKeep(Next(s, a), more);
        assert false;
      }
    } else {
      CarelessLeaks(s, a);
    }
  }

  // ---------- Two leaks ----------

  /** The state after a tracking session is stopped twice before the first stop is served, and both are. */
  ghost function TwiceStopped(s: State, id: nat): State {
    Next(Next(Next(Next(s, DoStop(id)), DoStop(id)), DoServe(true)), DoServe(true))
  }

  lemma StopIs(s: State, id: nat)
    requires Lawful(s.dict) && Fits(s.dict) && Tracks(s, id)
    ensures Next(s, DoStop(id)) == Ask(s, Call(StopOp, s.dict.forward[id], false, Some(StopRequest)))
  {
    EntryIs(s, id);
  }

  /** The second stop has no response, and its request stays. */
  lemma TwiceStoppedIs(s: State, id: nat)
    requires Lawful(s.dict) && Fits(s.dict) && s.calls == [] && s.queue == [] && Tracks(s, id)
    ensures var x := s.dict.forward[id];
            TwiceStopped(s, id)
            == s.(dict := RmBySession(s.dict, x), tracking := s.tracking - {x}, queue := [StopRequest])
  {
    var x := s.dict.forward[id];
    var c := Call(StopOp, x, false, Some(StopRequest));
    EntryIs(s, id);
    StopIs(s, id);
    StopIs(Ask(s, c), id);
    var s2 := s.(calls := [c, c], queue := [StopRequest, StopRequest]);
    assert Ask(Ask(s, c), c) == s2;
    var s3 := s.(dict := RmBySession(s.dict, x), tracking := s.tracking - {x}, calls := [c], queue := [StopRequest]);
    assert [c, c][1..] == [c] && [StopRequest, StopRequest][1..] == [StopRequest];
    assert Serve(s2, true) == s3;
    assert [c][1..] == [];
  }

  /**
   So the double stop of one id makes the next session of another leak as soon as it has
   begun: it runs, and its id is not known any more.
   */
  lemma DoubleStopLeaks(s: State, id: nat, other: nat, session: nat)
    requires Inv(s) && s.calls == [] && Tracks(s, id) && other !in s.dict.forward && Fresh(s, session)
    ensures var s' := Started(TwiceStopped(s, id), other, session);
            Leaks(s') && session in s'.tracking && other !in s'.dict.forward
  {
    var s4 := TwiceStopped(s, id);
    TwiceStoppedIs(s, id);
    EntryIs(s, id);
    RemoveFits(s.dict, s.dict.forward[id]);
    StartedIs(s4, other, session);
    var d := Set(s4.dict, other, session, NewEntity(other, OnFix, session));
    SetFits(s4.dict, other, session, OnFix);
    RemoveFits(d, session);
    var s' := Started(s4, other, session);
    assert session in s'.tracking && session !in s'.dict.backward && !StopPending(s'.calls, session);
  }

  /**
   That calls are served in order matters: when the API begins a new session before it
   stops another it was told to stop first, the new one leaks.
   */
  lemma OutOfOrderLeaks(s: State, stop: Call, start: Call)
    requires Inv(s) && s.calls == [stop, start] && stop.op == StopOp && stop.request.Some?
    requires start.op == StartOp
    ensures Leaks(Serve(s.(calls := [start, stop]), true))
  {
    TailFits(s);
    assert s.calls[1..] == [start];
    assert s.queue[0] == StopRequest;
    assert stop.session != start.session;
    RemoveFits(s.dict, start.session);
    var s' := Serve(s.(calls := [start, stop]), true);
    assert s'.calls == [stop];
    assert Knows(s'.tracking, s'.batching, start) && start.session !in s'.dict.backward &&
      !StopPending(s'.calls, start.session);
  }
}
