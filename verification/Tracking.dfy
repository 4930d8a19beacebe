/**
 The tracking multiplexer as it is built: a session map and the calls on the engine,
 with loops that look for the smallest interval. apiOk stands for the answer of the
 engine to the call a message may make; a refused call changes nothing.
 */
module Tracking {
  import opened Options
  import opened TrackingSpec

  datatype LocationError = Success | GeneralFailure | CallbackMissing | InvalidParameter

  /** A new session of these options asks no more of the engine than a session there is. */
  ghost predicate NoFaster(sessions: Sessions, options: LocationOptions) {
    exists k :: k in sessions && sessions[k].minInterval <= options.minInterval
  }

  /** Another session sets the pace, both before and after the session of key takes these options. */
  ghost predicate OthersPace(sessions: Sessions, key: SessionKey, options: LocationOptions)
    requires key in sessions
  {
    exists k :: k in sessions && k != key && sessions[k].minInterval <= sessions[key].minInterval
                && sessions[k].minInterval <= options.minInterval
  }

  class GnssAdapter {
    var mTrackingSessions: Sessions
    var engine: Option<LocPosMode>
    var restarts: nat

    ghost function Value(): State
      reads this
    {
      State(mTrackingSessions, engine, restarts)
    }

    /** The options in use are never the empty ones, whose size 0 the loops take for "not set yet". */
    ghost predicate Valid()
      reads this
    {
      forall k :: k in mTrackingSessions ==> mTrackingSessions[k].size != 0
    }

    constructor ()
      ensures Valid() && Value() == INIT
    {
      mTrackingSessions, engine, restarts := map[], None, 0;
    }

    /** The loop over all sessions but one, in some order, for the options with the smallest interval. */
    method SmallestInterval(except: Option<SessionKey>) returns (smallest: LocationOptions)
      requires Valid()
      ensures if forall k :: k in mTrackingSessions ==> Some(k) == except
              then smallest == LocationOptions(0, 0, SuplStandalone)
              else && smallest.size != 0
                   && (exists k :: k in mTrackingSessions && Some(k) != except && mTrackingSessions[k] == smallest)
                   && (forall k :: k in mTrackingSessions && Some(k) != except ==>
                         smallest.minInterval <= mTrackingSessions[k].minInterval)
    {
      smallest := LocationOptions(0, 0, SuplStandalone);
      var left := mTrackingSessions.Keys;
      while left != {}
        invariant left <= mTrackingSessions.Keys
        invariant smallest.size == 0 ==> smallest == LocationOptions(0, 0, SuplStandalone)
                                         && forall k :: k in mTrackingSessions && k !in left ==> Some(k) == except
        invariant smallest.size != 0 ==>
          && (exists k :: k in mTrackingSessions && k !in left && Some(k) != except && mTrackingSessions[k] == smallest)
          && (forall k :: k in mTrackingSessions && k !in left && Some(k) != except ==>
                smallest.minInterval <= mTrackingSessions[k].minInterval)
        decreases left
      {
        var key :| key in left;
        if Some(key) != except
           && (0 == smallest.size || mTrackingSessions[key].minInterval < smallest.minInterval) {
          smallest := mTrackingSessions[key];
        }
        left := left - {key};
      }
    }

    method StartTracking(options: LocationOptions, apiOk: bool) returns (err: LocationError)
      modifies this`engine
      ensures EngineCall(old(Value()), Value(), options, apiOk)
      ensures err == if apiOk then Success else GeneralFailure
    {
      err := GeneralFailure;
      if apiOk {
        engine := Some(ConvertOptions(options));
        err := Success;
      }
    }

    method StopTracking(apiOk: bool) returns (err: LocationError)
      modifies this`engine
      ensures engine == if apiOk then None else old(engine)
      ensures err == if apiOk then Success else GeneralFailure
    {
      err := GeneralFailure;
      if apiOk {
        engine := None;
        err := Success;
      }
    }

    method StartTrackingMultiplex(options: LocationOptions, apiOk: bool) returns (err: LocationError)
      requires Valid()
      modifies this`engine
      ensures StartMultiplex(old(Value()), Value(), options, err == Success)
      ensures err == if apiOk || NoFaster(mTrackingSessions, options) then Success else GeneralFailure
    {
      err := Success;
      if mTrackingSessions == map[] {
        err := StartTracking(options, apiOk);
      } else {
        var key :| key in mTrackingSessions.Keys;
        var smallest := SmallestInterval(None);
        assert Smallest(mTrackingSessions, smallest);
        if options.minInterval < smallest.minInterval {
          err := StartTracking(options, apiOk);
        }
      }
    }

    method UpdateTrackingMultiplex(key: SessionKey, options: LocationOptions, apiOk: bool) returns (err: LocationError)
      requires Valid() && key in mTrackingSessions
      modifies this`engine
      ensures UpdateMultiplex(old(Value()), Value(), key, options, err == Success)
      ensures err == if apiOk || OthersPace(mTrackingSessions, key, options) then Success else GeneralFailure
    {
      err := Success;
      if |mTrackingSessions| == 1 {
        OnlySession(mTrackingSessions, key);
        err := StartTracking(options, apiOk);
      } else {
        AnotherSession(mTrackingSessions, key);
        var smallest := SmallestInterval(Some(key));
        assert SmallestOther(mTrackingSessions, key, smallest);
        if options.minInterval < smallest.minInterval {
          err := StartTracking(options, apiOk);
        } else if mTrackingSessions[key].minInterval < smallest.minInterval {
          err := StartTracking(smallest, apiOk);
        }
      }
    }

    method StopTrackingMultiplex(key: SessionKey, apiOk: bool) returns (err: LocationError)
      requires Valid() && key in mTrackingSessions
      modifies this`engine
      ensures StopMultiplex(old(Value()), Value(), key, err == Success)
      ensures err == if apiOk || OthersPace(mTrackingSessions, key, mTrackingSessions[key]) then Success
        else GeneralFailure
    {
      err := Success;
      if |mTrackingSessions| == 1 {
        OnlySession(mTrackingSessions, key);
        err := StopTracking(apiOk);
      } else {
        AnotherSession(mTrackingSessions, key);
        var smallest := SmallestInterval(Some(key));
        assert SmallestOther(mTrackingSessions, key, smallest);
        if mTrackingSessions[key].minInterval < smallest.minInterval {
          err := StartTracking(smallest, apiOk);
        }
      }
    }

    /** MsgStartTracking::proc. */
    method StartTrackingCommand(key: SessionKey, options: LocationOptions, hasCallback: bool, apiOk: bool)
      returns (err: LocationError)
      requires Valid()
      modifies this
      ensures Valid() && Step(old(Value()), Start(key, options, hasCallback, err == Success), Value())
      ensures mTrackingSessions == if err == Success then old(mTrackingSessions)[key := options]
        else old(mTrackingSessions)
      ensures err == Success <==>
        hasCallback && options.size != 0 && (apiOk || NoFaster(old(mTrackingSessions), options))
      ensures err == CallbackMissing <==> !hasCallback
      ensures err == InvalidParameter <==> hasCallback && options.size == 0
    {
      if !hasCallback {
        return CallbackMissing;
      } else if 0 == options.size {
        return InvalidParameter;
      }
      err := StartTrackingMultiplex(options, apiOk);
      ghost var t := Value();
      if err == Success {
        mTrackingSessions := mTrackingSessions[key := options];
      }
      assert StartMultiplex(old(Value()), t, options, err == Success);
    }

    /** MsgUpdateTracking::proc; nothing is reported of a session that does not exist. */
    method UpdateTrackingOptionsCommand(key: SessionKey, options: LocationOptions, apiOk: bool)
      returns (reported: Option<LocationError>)
      requires Valid()
      modifies this
      ensures Valid() && Step(old(Value()), Update(key, options, reported == Some(Success)), Value())
      ensures reported.None? <==> key !in old(mTrackingSessions)
      ensures mTrackingSessions == if reported == Some(Success) then old(mTrackingSessions)[key := options]
        else old(mTrackingSessions)
      ensures reported == Some(Success) <==>
        && key in old(mTrackingSessions) && options.size != 0
        && (apiOk || OthersPace(old(mTrackingSessions), key, options))
    {
      reported := None;
      if key in mTrackingSessions {
        if 0 == options.size {
          return Some(InvalidParameter);
        }
        var err := UpdateTrackingMultiplex(key, options, apiOk);
        ghost var t := Value();
        if err == Success {
          mTrackingSessions := mTrackingSessions[key := options];
        }
        assert UpdateMultiplex(old(Value()), t, key, options, err == Success);
        reported := Some(err);
      }
    }

    /** MsgStopTracking::proc. */
    method StopTrackingCommand(key: SessionKey, apiOk: bool) returns (reported: Option<LocationError>)
      requires Valid()
      modifies this
      ensures Valid() && Step(old(Value()), Stop(key, reported == Some(Success)), Value())
      ensures reported.None? <==> key !in old(mTrackingSessions)
      ensures mTrackingSessions == if reported == Some(Success) then old(mTrackingSessions) - {key}
        else old(mTrackingSessions)
      ensures reported == Some(Success) <==>
        && key in old(mTrackingSessions)
        && (apiOk || OthersPace(old(mTrackingSessions), key, old(mTrackingSessions)[key]))
    {
      reported := None;
      if key in mTrackingSessions {
        var err := StopTrackingMultiplex(key, apiOk);
        ghost var t := Value();
        if err == Success {
          mTrackingSessions := mTrackingSessions - {key};
        }
        assert StopMultiplex(old(Value()), t, key, err == Success);
        reported := Some(err);
      }
    }

    /**
     stopClientSessions: a stop for each session of the client, erasing those whose stop
     succeeds. run records the states between the stops.
     */
    method StopClientSessions(client: nat, apiOk: SessionKey -> bool)
      returns (ghost run: seq<State>, ghost stops: seq<Command>)
      requires Valid()
      modifies this
      ensures Valid()
      ensures |run| == |stops| + 1 && run[0] == old(Value()) && run[|stops|] == Value()
      ensures forall i :: 0 <= i < |stops| ==>
                stops[i].Stop? && stops[i].key.client == client && Step(run[i], stops[i], run[i + 1])
      ensures forall k :: k in old(mTrackingSessions) && k.client != client ==>
                k in mTrackingSessions && mTrackingSessions[k] == old(mTrackingSessions)[k]
      ensures mTrackingSessions.Keys <= old(mTrackingSessions).Keys
      ensures forall k :: k in mTrackingSessions ==> mTrackingSessions[k] == old(mTrackingSessions)[k]
      ensures forall k :: k in mTrackingSessions && k.client == client ==> !apiOk(k)
    {
      run, stops := [Value()], [];
      var left := mTrackingSessions.Keys;
      while left != {}
        invariant Valid() && mTrackingSessions.Keys <= old(mTrackingSessions).Keys && left <= mTrackingSessions.Keys
        invariant |run| == |stops| + 1 && run[0] == old(Value()) && run[|stops|] == Value()
        invariant forall i :: 0 <= i < |stops| ==>
          stops[i].Stop? && stops[i].key.client == client && Step(run[i], stops[i], run[i + 1])
        invariant forall k :: k in old(mTrackingSessions) && k.client != client ==>
                    k in mTrackingSessions && mTrackingSessions[k] == old(mTrackingSessions)[k]
        invariant forall k :: k in mTrackingSessions ==> mTrackingSessions[k] == old(mTrackingSessions)[k]
        invariant forall k :: k in mTrackingSessions && k !in left && k.client == client ==> !apiOk(k)
        decreases left
      {
        var key :| key in left;
        left := left - {key};
        if key.client == client {
          var reported := StopTrackingCommand(key, apiOk(key));
          run, stops := run + [Value()], stops + [Stop(key, reported == Some(Success))];
        }
      }
    }

    /** handleEngineUpEvent: the engine has come up again, with no fix running, and a restart is queued. */
    method HandleEngineUp()
      requires Valid()
      modifies this
      ensures Valid() && Step(old(Value()), EngineUp, Value())
    {
      engine := None;
      restarts := restarts + 1;
    }

    method RestartSessions()
      requires Valid() && restarts > 0
      modifies this
      ensures Valid() && Step(old(Value()), Restart, Value())
    {
      restarts := restarts - 1;
      if mTrackingSessions != map[] {
        var key :| key in mTrackingSessions.Keys;
        var smallest := SmallestInterval(None);
        assert Smallest(mTrackingSessions, smallest);
        engine := Some(ConvertOptions(smallest));
      }
    }
  }

  lemma AnotherSession(sessions: Sessions, key: SessionKey)
    requires key in sessions && |sessions| != 1
    ensures exists k :: k in sessions && k != key
  {
    assert |sessions.Keys - {key}| == |sessions.Keys| - 1;
    var k :| k in sessions.Keys - {key};
  }

  /** The counter session ids are taken from; made says how many there have been. */
  class SessionIds {
    var mSessionIdCounter: nat
    ghost var made: nat

    ghost predicate Valid()
      reads this
    {
      mSessionIdCounter == IdAt(made)
    }

    constructor ()
      ensures Valid() && made == 0
    {
      mSessionIdCounter, made := 1, 0;
    }

    method GenerateSessionId() returns (id: nat)
      requires Valid()
      modifies this
      ensures Valid() && made == old(made) + 1
      ensures id == IdAt(made) && 0 < id < 0xFFFF_FFFF
    {
      mSessionIdCounter := mSessionIdCounter + 1;
      if mSessionIdCounter == 0xFFFF_FFFF {
        mSessionIdCounter := 1;
      }
      made := made + 1;
      IdAtIs(made);
      id := mSessionIdCounter;
    }
  }
}
