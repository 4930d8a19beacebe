/**
 BiDict, RequestQueue and the LocationAPIClientBase methods that drive them, as they are
 built. Those called by clients run under the object's mutex; the handler of trips takes
 the dictionary's own lock call by call, and is given as if nothing came between.
 */
module LocationClient {
  import opened Options
  import opened BiDictSpec
  import opened ClientSessionsSpec

  class BiDict<T(==)> {
    const zero: T
    var mForwardMap: map<nat, nat>
    var mBackwardMap: map<nat, nat>
    var mExtMap: map<nat, T>

    constructor (zero: T)
      ensures this.zero == zero && Value() == Empty()
    {
      this.zero := zero;
      mForwardMap, mBackwardMap, mExtMap := map[], map[], map[];
    }

    ghost function Value(): Dict<T>
      reads this
    {
      Dict(mForwardMap, mBackwardMap, mExtMap)
    }

    predicate HasId(id: nat)
      reads this
    {
      id in mForwardMap
    }

    predicate HasSession(session: nat)
      reads this
    {
      session in mBackwardMap
    }

    method SetPair(id: nat, session: nat, ext: T)
      modifies this
      ensures Value() == Set(old(Value()), id, session, ext)
    {
      mForwardMap := mForwardMap[id := session];
      mBackwardMap := mBackwardMap[session := id];
      mExtMap := mExtMap[session := ext];
    }

    method Clear()
      modifies this
      ensures Value() == Empty()
    {
      mForwardMap, mBackwardMap, mExtMap := map[], map[], map[];
    }

    /** mForwardMap[id], which makes an entry when there is none. */
    method At(id: nat) returns (session: nat)
      modifies this`mForwardMap
      ensures session == Find(old(mForwardMap), id)
      ensures mForwardMap == if id in old(mForwardMap) then old(mForwardMap) else old(mForwardMap)[id := 0]
    {
      if id !in mForwardMap {
        mForwardMap := mForwardMap[id := 0];
      }
      session := mForwardMap[id];
    }

    method RemoveById(id: nat)
      modifies this
      ensures Value() == RmById(old(Value()), id)
    {
      var session := At(id);
      mBackwardMap := mBackwardMap - {session};
      session := At(id);
      mExtMap := mExtMap - {session};
      mForwardMap := mForwardMap - {id};
      assert mForwardMap == old(mForwardMap) - {id};
    }

    method RemoveBySession(session: nat)
      modifies this
      ensures Value() == RmBySession(old(Value()), session)
    {
      if session !in mBackwardMap {
        mBackwardMap := mBackwardMap[session := 0];
      }
      mForwardMap := mForwardMap - {mBackwardMap[session]};
      mBackwardMap := mBackwardMap - {session};
      mExtMap := mExtMap - {session};
      assert mBackwardMap == old(mBackwardMap) - {session};
    }

    function GetId(session: nat): (id: nat)
      reads this
      ensures id == Find(mBackwardMap, session)
    {
      if session in mBackwardMap then mBackwardMap[session] else 0
    }

    function GetSession(id: nat): (session: nat)
      reads this
      ensures session == Find(mForwardMap, id)
    {
      if id in mForwardMap then mForwardMap[id] else 0
    }

    function GetExtBySession(session: nat): (ext: T)
      reads this
      ensures ext == ExtBySession(Value(), session, zero)
    {
      if session in mExtMap then mExtMap[session] else zero
    }

    method GetExtById(id: nat) returns (ext: T)
      modifies this`mForwardMap
      ensures (ext, Value()) == ExtById(old(Value()), id, zero)
    {
      ext := zero;
      var session := At(id);
      if session > 0 && session in mExtMap {
        ext := mExtMap[session];
      }
    }
  }

  class GeofenceClient {
    const mGeofenceBiDict: BiDict<nat>

    constructor ()
      ensures fresh(mGeofenceBiDict) && mGeofenceBiDict.zero == 0 && mGeofenceBiDict.Value() == Empty()
    {
      mGeofenceBiDict := new BiDict(0);
    }

    /** sessions is what the location API answers. */
    method AddGeofences(ids: seq<nat>, sessions: seq<nat>, masks: seq<nat>)
      requires |ids| == |sessions| == |masks|
      modifies mGeofenceBiDict
      ensures mGeofenceBiDict.Value() == SetAll(old(mGeofenceBiDict.Value()), ids, sessions, masks)
    {
      for i := 0 to |ids|
        invariant mGeofenceBiDict.Value() == SetAll(old(mGeofenceBiDict.Value()), ids[..i], sessions[..i], masks[..i])
      {
        assert ids[..i + 1][..i] == ids[..i] && sessions[..i + 1][..i] == sessions[..i] &&
          masks[..i + 1][..i] == masks[..i];
        mGeofenceBiDict.SetPair(ids[i], sessions[i], masks[i]);
      }
      assert ids[..|ids|] == ids && sessions[..|ids|] == sessions && masks[..|ids|] == masks;
    }

    /**
     The known ids go to a dictionary of their own, for the response; sessions are those
     told to the location API, which is not called when there are none.
     */
    method RemoveGeofences(ids: seq<nat>) returns (removed: BiDict<nat>, sessions: seq<nat>)
      requires mGeofenceBiDict.zero == 0
      modifies mGeofenceBiDict
      ensures fresh(removed)
      ensures Split(mGeofenceBiDict.Value(), removed.Value(), sessions) ==
        RemoveAll(old(mGeofenceBiDict.Value()), ids, 0)
    {
      removed := new BiDict(0);
      var buffer := new nat[|ids|];
      var j := 0;
      for i := 0 to |ids|
        invariant fresh(removed) && fresh(buffer) && removed != mGeofenceBiDict
        invariant j <= i
        invariant Split(mGeofenceBiDict.Value(), removed.Value(), buffer[..j])
                  == RemoveAll(old(mGeofenceBiDict.Value()), ids[..i], 0)
      {
        assert ids[..i + 1][..i] == ids[..i];
        ghost var told := buffer[..j];
        buffer[j] := mGeofenceBiDict.GetSession(ids[i]);
        assert buffer[..j] == told;
        if buffer[j] > 0 {
          var mask := mGeofenceBiDict.GetExtBySession(buffer[j]);
          mGeofenceBiDict.RemoveBySession(buffer[j]);
          removed.SetPair(ids[i], buffer[j], mask);
          j := j + 1;
          assert buffer[..j] == told + [buffer[j - 1]];
        }
      }
      assert ids[..|ids|] == ids;
      sessions := buffer[..j];
    }
  }

  class RequestQueue {
    var mQueue: seq<RequestKind>

    constructor ()
      ensures mQueue == []
    {
      mQueue := [];
    }

    method Push(request: RequestKind)
      modifies this
      ensures mQueue == old(mQueue) + [request]
    {
      mQueue := mQueue + [request];
    }

    method Pop() returns (request: Option<RequestKind>)
      modifies this
      ensures request == if old(mQueue) == [] then None else Some(old(mQueue)[0])
      ensures mQueue == if old(mQueue) == [] then [] else old(mQueue)[1..]
    {
      request := None;
      if mQueue != [] {
        request := Some(mQueue[0]);
        mQueue := mQueue[1..];
      }
    }
  }

  datatype Status = Success | AlreadyStarted | IdUnknown | NotSupported

  /** The location API's side, which its own threads serve, is ghost. */
  class SessionClient {
    const mSessionBiDict: BiDict<Entity>
    const mRequests: RequestQueue   // mRequestQueues[REQUEST_SESSION]
    ghost var calls: seq<Call>
    ghost var tracking: set<nat>
    ghost var batching: set<nat>
    ghost var used: set<nat>

    ghost predicate Valid()
    {
      mSessionBiDict.zero == ZERO
    }

    ghost function Value(): State
      reads this, mSessionBiDict, mRequests
    {
      State(mSessionBiDict.Value(), mRequests.mQueue, calls, tracking, batching, used)
    }

    constructor ()
      ensures Valid() && fresh(mSessionBiDict) && fresh(mRequests) && Value() == INIT
    {
      mSessionBiDict := new BiDict(ZERO);
      mRequests := new RequestQueue();
      calls, tracking, batching, used := [], {}, {}, {};
    }

    /** A call on the location API, with the request pushed for it. */
    ghost method CallApi(op: Op, session: nat, batching: bool, request: Option<RequestKind>)
      modifies this`calls
      ensures calls == old(calls) + [Call(op, session, batching, request)]
    {
      calls := calls + [Call(op, session, batching, request)];
    }

    /** The session the API answers to a start. */
    ghost method HandOut(session: nat)
      modifies this`used
      ensures used == old(used) + {session}
    {
      used := used + {session};
    }

    method StartSession(id: nat, sessionMode: SessionMode, answer: nat) returns (status: Status)
      requires Valid()
      modifies this, mSessionBiDict, mRequests
      ensures Value() == Start(old(Value()), id, sessionMode, answer)
      ensures status == if id in old(mSessionBiDict.mForwardMap) then AlreadyStarted else Success
    {
      if mSessionBiDict.HasId(id) {
        status := AlreadyStarted;
      } else {
        var trackingSession, batchingSession := 0, 0;
        HandOut(answer);
        CallApi(StartOp, answer, sessionMode != OnFix, Some(StartRequest));
        if sessionMode == OnFix {
          trackingSession := answer;
        } else {
          batchingSession := answer;
        }
        mRequests.Push(StartRequest);
        var session := if sessionMode != OnFix then batchingSession else trackingSession;
        mSessionBiDict.SetPair(id, session, Entity(id, trackingSession, batchingSession, sessionMode));
        status := Success;
      }
    }

    method StopSession(id: nat) returns (status: Status)
      requires Valid()
      modifies this, mSessionBiDict, mRequests
      ensures Value() == Stop(old(Value()), id)
      ensures status == if id in old(mSessionBiDict.mForwardMap) then Success else IdUnknown
    {
      if mSessionBiDict.HasId(id) {
        var entity := mSessionBiDict.GetExtById(id);
        mRequests.Push(StopRequest);
        if entity.sessionMode == OnFix {
          CallApi(StopOp, entity.trackingSession, false, Some(StopRequest));
        } else {
          CallApi(StopOp, entity.batchingSession, true, Some(StopRequest));
        }
        status := Success;
      } else {
        status := IdUnknown;
      }
    }

    method UpdateSessionOptions(id: nat, sessionMode: SessionMode, answer: nat) returns (status: Status)
      requires Valid()
      modifies this, mSessionBiDict, mRequests
      ensures Value() == Update(old(Value()), id, sessionMode, answer)
      ensures status == if id in old(mSessionBiDict.mForwardMap) then Success else IdUnknown
    {
      if mSessionBiDict.HasId(id) {
        var entity := mSessionBiDict.GetExtById(id);
        var trackingSession, batchingSession := entity.trackingSession, entity.batchingSession;
        mRequests.Push(UpdateRequest);
        if sessionMode == OnFix {
          if entity.sessionMode == OnFix {
            CallApi(UpdateOp, trackingSession, false, Some(UpdateRequest));
          } else {
            CallApi(StopOp, batchingSession, true, None);
            batchingSession := 0;
            HandOut(answer);
            CallApi(StartOp, answer, false, Some(UpdateRequest));
            trackingSession := answer;
          }
        } else if entity.sessionMode == OnFix {
          CallApi(StopOp, trackingSession, false, None);
          trackingSession := 0;
          HandOut(answer);
          CallApi(StartOp, answer, true, Some(UpdateRequest));
          batchingSession := answer;
        } else {
          CallApi(UpdateOp, batchingSession, true, Some(UpdateRequest));
        }
        var session := if sessionMode != OnFix then batchingSession else trackingSession;
        mSessionBiDict.RemoveById(id);
        mSessionBiDict.SetPair(id, session,
          entity.(trackingSession := trackingSession, batchingSession := batchingSession, sessionMode := sessionMode));
        status := Success;
      } else {
        status := IdUnknown;
      }
    }

    method GetBatchedLocations(id: nat) returns (status: Status)
      requires Valid()
      modifies this, mSessionBiDict, mRequests
      ensures Value() == GetBatched(old(Value()), id)
      ensures status == if id !in old(mSessionBiDict.mForwardMap) then IdUnknown
                        else if EntityOf(old(Value()), id).sessionMode == OnFix then NotSupported else Success
    {
      if mSessionBiDict.HasId(id) {
        var entity := mSessionBiDict.GetExtById(id);
        if entity.sessionMode != OnFix {
          mRequests.Push(UpdateRequest);
          CallApi(UpdateOp, entity.batchingSession, true, Some(UpdateRequest));
          status := Success;
        } else {
          status := NotSupported;
        }
      } else {
        status := IdUnknown;
      }
    }

    method RemoveSession(session: nat)
      requires Valid()
      modifies mSessionBiDict
      ensures mSessionBiDict.Value() == if session in old(mSessionBiDict.mBackwardMap)
                then RmBySession(old(mSessionBiDict.Value()), session) else old(mSessionBiDict.Value())
    {
      if mSessionBiDict.HasSession(session) {
        mSessionBiDict.RemoveBySession(session);
      }
    }

    method GetRequestBySession(session: nat) returns (request: Option<RequestKind>)
      requires Valid()
      modifies mRequests
      ensures var was := old(mRequests.mQueue);
              if session in mSessionBiDict.mBackwardMap && was != []
              then request == Some(was[0]) && mRequests.mQueue == was[1..]
              else request == None && mRequests.mQueue == was
    {
      request := None;
      if mSessionBiDict.HasSession(session) {
        request := mRequests.Pop();
      }
    }

    /** The API's response about a session, and the onResponse of the request popped for it. */
    method OnResponse(success: bool, session: nat)
      requires Valid()
      modifies mSessionBiDict, mRequests
      ensures Value() == Respond(old(Value()), session, success)
    {
      var request := GetRequestBySession(session);
      if request.Some? {
        match request.value
        case StartRequest =>
          if !success {
            RemoveSession(session);
          }
        case StopRequest =>
          if success {
            RemoveSession(session);
          }
        case UpdateRequest =>
      }
    }

    /** The trips that are complete, as client ids. */
    method BeforeBatchingStatus(completed: seq<nat>) returns (clientIds: seq<nat>)
      requires Valid()
      modifies this, mSessionBiDict
      ensures Value() == EndTrips(old(Value()), completed)
      ensures clientIds == TripIds(old(Value()), completed)
    {
      clientIds := [];
      for i := 0 to |completed|
        invariant Value() == EndTrips(old(Value()), completed[..i])
        invariant clientIds == TripIds(old(Value()), completed[..i])
      {
        assert completed[..i + 1][..i] == completed[..i];
        var session := completed[i];
        batching := batching - {session};
        if mSessionBiDict.HasSession(session) {
          var entity := mSessionBiDict.GetExtBySession(session);
          if entity.sessionMode == OnTripCompleted {
            clientIds := clientIds + [entity.id];
            mSessionBiDict.RemoveBySession(session);
          }
        }
      }
      assert completed[..|completed|] == completed;
    }
  }

  function EndTrips(s: State, sessions: seq<nat>): State {
    if sessions == [] then s else EndTrip(EndTrips(s, sessions[..|sessions| - 1]), sessions[|sessions| - 1])
  }

  function TripIds(s: State, sessions: seq<nat>): seq<nat> {
    if sessions == [] then []
    else
      var n := |sessions| - 1;
      var s' := EndTrips(s, sessions[..n]);
      var entity := ExtBySession(s'.dict, sessions[n], ZERO);
      TripIds(s, sessions[..n])
      + if sessions[n] in s'.dict.backward && entity.sessionMode == OnTripCompleted then [entity.id] else []
  }

  predicate OnTrip(s: State, id: nat) {
    id in s.dict.forward && ExtBySession(s.dict, s.dict.forward[id], ZERO).sessionMode == OnTripCompleted
  }

  /**
   The ids reported complete are exactly those whose trip sessions were listed, each
   reported once; they are not known any more, and all others keep their sessions.
   */
  lemma {:induction false} TripIdsAre(s: State, sessions: seq<nat>)
    requires Lawful(s.dict) && Fits(s.dict)
    ensures var s', ids := EndTrips(s, sessions), TripIds(s, sessions);
            && Lawful(s'.dict) && Fits(s'.dict) && Distinct(ids)
            && (forall id :: id in ids <==> OnTrip(s, id) && s.dict.forward[id] in sessions)
            && (forall id :: id in s'.dict.forward <==> id in s.dict.forward && id !in ids)
            && (forall id :: id in s'.dict.forward ==>
                  Paired(s.dict, id, s'.dict.forward[id]) && (OnTrip(s', id) <==> OnTrip(s, id)))
  {
    if sessions != [] {
      var n := |sessions| - 1;
      var s' := EndTrips(s, sessions[..n]);
      TripIdsAre(s, sessions[..n]);
      EndTripIs(s', sessions[n]);
      LastIn(sessions);
    }
  }

  lemma LastIn(s: seq<nat>)
    requires s != []
    ensures forall x :: x in s <==> x in s[..|s| - 1] || x == s[|s| - 1]
  {
    assert s == s[..|s| - 1] + [s[|s| - 1]];
  }

  lemma EndTripIs(s: State, session: nat)
    requires Lawful(s.dict) && Fits(s.dict)
    ensures var s' := EndTrip(s, session);
            && Lawful(s'.dict) && Fits(s'.dict)
            && (forall id :: id in s'.dict.forward <==>
                  id in s.dict.forward && !(OnTrip(s, id) && s.dict.forward[id] == session))
            && (forall id :: id in s'.dict.forward ==>
                  Paired(s.dict, id, s'.dict.forward[id]) && (OnTrip(s', id) <==> OnTrip(s, id)))
            && (session in s.dict.backward ==>
                  var entity := ExtBySession(s.dict, session, ZERO);
                  entity.id == s.dict.backward[session] && Paired(s.dict, entity.id, session))
  {
    EndTripFits(s, session);
    if session in s.dict.backward {
      RemoveFits(s.dict, session);
    }
  }
}
