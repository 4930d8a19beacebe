/**
 The tracking multiplexer of GnssAdapter: many client sessions on one engine that takes
 one interval. The steps follow the code, which never recomputes the minimum after a
 change but compares a few intervals before it; the law is that the engine nevertheless
 always runs at the minimum. The ULP proxy is the base one, which never handles a fix.
 */
module TrackingSpec {
  import opened Options

  datatype PositionMode = Standalone | MsBased | MsAssisted
  datatype SuplMode = SuplStandalone | SuplMsb | SuplMsa

  /** size is the client's sizeof, 0 in options that were never filled in. */
  datatype LocationOptions = LocationOptions(size: nat, minInterval: nat, mode: SuplMode)

  datatype LocPosMode = LocPosMode(mode: PositionMode, minInterval: nat)

  function ConvertOptions(o: LocationOptions): LocPosMode {
    LocPosMode(match o.mode case SuplMsb => MsBased case SuplMsa => MsAssisted case SuplStandalone => Standalone,
               o.minInterval)
  }

  datatype SessionKey = SessionKey(client: nat, id: nat)

  type Sessions = map<SessionKey, LocationOptions>

  /** engine is what mLocApi was last started with; restarts counts the queued restart messages. */
  datatype State = State(sessions: Sessions, engine: Option<LocPosMode>, restarts: nat)

  const INIT := State(map[], None, 0)

  // ---------- Session ids ----------

  /** generateSessionId: the counter after n calls, in 32 bits, never 0 and never 0xFFFFFFFF. */
  function IdAt(n: nat): nat {
    if n == 0 then 1
    else if IdAt(n - 1) + 1 == 0xFFFF_FFFF then 1
    else IdAt(n - 1) + 1
  }

  lemma {:induction false} IdAtIs(n: nat)
    ensures IdAt(n) == n % 0xFFFF_FFFE + 1
  {
    if n > 0 {
      IdAtIs(n - 1);
    }
  }

  /** Ids repeat exactly with period 2^32 - 2. */
  lemma IdsRepeat(m: nat, n: nat)
    ensures IdAt(m) == IdAt(n) <==> m % 0xFFFF_FFFE == n % 0xFFFF_FFFE
  {
    IdAtIs(m);
    IdAtIs(n);
  }

  // ---------- The law ----------

  ghost predicate IsMin(sessions: Sessions, v: nat) {
    && (exists k :: k in sessions && sessions[k].minInterval == v)
    && (forall k :: k in sessions ==> v <= sessions[k].minInterval)
  }

  /** The engine runs exactly when there are sessions, at their smallest interval. */
  ghost predicate Agrees(s: State) {
    && (s.engine.Some? <==> s.sessions != map[])
    && (s.engine.Some? ==> IsMin(s.sessions, s.engine.value.minInterval))
  }

  /** While a restart is queued the engine may lag behind, but it does not run without sessions. */
  ghost predicate Inv(s: State) {
    && (forall k :: k in s.sessions ==> s.sessions[k].size != 0)
    && (s.restarts == 0 ==> Agrees(s))
    && (s.sessions == map[] ==> s.engine.None?)
  }

  // ---------- Steps ----------

  /** o is one of the sessions other than key, with the smallest interval of them. */
  ghost predicate SmallestOther(sessions: Sessions, key: SessionKey, o: LocationOptions) {
    && (exists k :: k in sessions && k != key && sessions[k] == o)
    && (forall k :: k in sessions && k != key ==> o.minInterval <= sessions[k].minInterval)
  }

  ghost predicate Smallest(sessions: Sessions, o: LocationOptions) {
    && (exists k :: k in sessions && sessions[k] == o)
    && (forall k :: k in sessions ==> o.minInterval <= sessions[k].minInterval)
  }

  /** startTracking(o): the engine takes o, or refuses and stays as it is. */
  predicate EngineCall(s: State, s': State, o: LocationOptions, ok: bool) {
    s'.sessions == s.sessions && s'.restarts == s.restarts
    && s'.engine == if ok then Some(ConvertOptions(o)) else s.engine
  }

  predicate Untouched(s: State, s': State, ok: bool) {
    s' == s && ok
  }

  ghost predicate StartMultiplex(s: State, s': State, o: LocationOptions, ok: bool) {
    if s.sessions == map[] then EngineCall(s, s', o, ok)
    else exists small :: Smallest(s.sessions, small)
                      && if o.minInterval < small.minInterval then EngineCall(s, s', o, ok) else Untouched(s, s', ok)
  }

  ghost predicate UpdateMultiplex(s: State, s': State, key: SessionKey, o: LocationOptions, ok: bool)
    requires key in s.sessions
  {
    if |s.sessions| == 1 then EngineCall(s, s', o, ok)
    else exists small :: SmallestOther(s.sessions, key, small)
                      && if o.minInterval < small.minInterval then EngineCall(s, s', o, ok)
                         else if s.sessions[key].minInterval < small.minInterval then EngineCall(s, s', small, ok)
                         else Untouched(s, s', ok)
  }

  ghost predicate StopMultiplex(s: State, s': State, key: SessionKey, ok: bool)
    requires key in s.sessions
  {
    if |s.sessions| == 1 then
      s'.sessions == s.sessions && s'.restarts == s.restarts && s'.engine == if ok then None else s.engine
    else exists small :: SmallestOther(s.sessions, key, small)
                      && if s.sessions[key].minInterval < small.minInterval then EngineCall(s, s', small, ok)
                         else Untouched(s, s', ok)
  }

  /** ok: the command was answered, and with success. */
  datatype Command =
    | Start(key: SessionKey, options: LocationOptions, hasCallback: bool, ok: bool)
    | Update(key: SessionKey, options: LocationOptions, ok: bool)
    | Stop(key: SessionKey, ok: bool)
    | EngineUp
    | Restart

  /** s' can follow s by the message of a command; a session is saved or erased only if the engine took the change. */
  ghost predicate Step(s: State, c: Command, s': State) {
    match c
    case Start(key, o, hasCallback, ok) =>
      if !hasCallback || o.size == 0 then s' == s && !ok
      else exists t :: StartMultiplex(s, t, o, ok) && s' == if ok then t.(sessions := t.sessions[key := o]) else t
    case Update(key, o, ok) =>
      if key !in s.sessions || o.size == 0 then s' == s && !ok
      else exists t :: UpdateMultiplex(s, t, key, o, ok) && s' == if ok then t.(sessions := t.sessions[key := o]) else t
    case Stop(key, ok) =>
      if key !in s.sessions then s' == s && !ok
      else exists t :: StopMultiplex(s, t, key, ok) && s' == if ok then t.(sessions := t.sessions - {key}) else t
    case EngineUp =>
      s' == s.(engine := None, restarts := s.restarts + 1)
    case Restart =>
      s.restarts > 0
      && if s.sessions == map[] then s' == s.(restarts := s.restarts - 1)
         else exists small :: Smallest(s.sessions, small)
                           && s' == s.(restarts := s.restarts - 1, engine := Some(ConvertOptions(small)))
  }

  // ---------- Keeping the law ----------

  lemma MinIsUnique(sessions: Sessions, v: nat, w: nat)
    requires IsMin(sessions, v) && IsMin(sessions, w)
    ensures v == w
  {
  }

  lemma StartKeeps(s: State, t: State, key: SessionKey, o: LocationOptions, ok: bool)
    requires Inv(s) && key !in s.sessions && o.size != 0 && StartMultiplex(s, t, o, ok)
    ensures Inv(if ok then t.(sessions := t.sessions[key := o]) else t)
  {
    if ok {
      var sessions' := s.sessions[key := o];
      assert key in sessions';
      assert forall k :: k in s.sessions ==> k in sessions' && sessions'[k] == s.sessions[k];
      if s.sessions == map[] {
        assert IsMin(sessions', o.minInterval);
      } else {
        var small :| Smallest(s.sessions, small)
                  && if o.minInterval < small.minInterval then EngineCall(s, t, o, ok) else Untouched(s, t, ok);
        assert IsMin(sessions', if o.minInterval < small.minInterval then o.minInterval else small.minInterval);
        if s.restarts == 0 {
          MinIsUnique(s.sessions, small.minInterval, s.engine.value.minInterval);
        }
      }
    }
  }

  lemma OnlySession(sessions: Sessions, key: SessionKey)
    requires key in sessions && |sessions| == 1
    ensures sessions == map[key := sessions[key]]
  {
    assert |sessions.Keys - {key}| == |sessions.Keys| - 1 == 0;
    forall k | k in sessions ensures k == key {
      assert k !in sessions.Keys - {key};
    }
  }

  function Least(a: nat, b: nat): nat {
    if a <= b then a else b
  }

  /** The minimum of all sessions, from that of the others: before, after an update, and after a stop of key. */
  lemma MinWithOthers(sessions: Sessions, key: SessionKey, o: LocationOptions, small: LocationOptions)
    requires key in sessions && SmallestOther(sessions, key, small)
    ensures IsMin(sessions, Least(sessions[key].minInterval, small.minInterval))
    ensures IsMin(sessions[key := o], Least(o.minInterval, small.minInterval))
    ensures IsMin(sessions - {key}, small.minInterval)
  {
    var k :| k in sessions && k != key && sessions[k] == small;
    assert k in sessions[key := o] && key in sessions[key := o] && k in sessions - {key};
  }

  lemma UpdateKeeps(s: State, t: State, key: SessionKey, o: LocationOptions, ok: bool)
    requires Inv(s) && key in s.sessions && o.size != 0 && UpdateMultiplex(s, t, key, o, ok)
    ensures Inv(if ok then t.(sessions := t.sessions[key := o]) else t)
  {
    if ok {
      var sessions' := s.sessions[key := o];
      assert key in sessions';
      if |s.sessions| == 1 {
        OnlySession(s.sessions, key);
        assert IsMin(sessions', o.minInterval);
      } else {
        var small :| SmallestOther(s.sessions, key, small)
                  && if o.minInterval < small.minInterval then EngineCall(s, t, o, ok)
                     else if s.sessions[key].minInterval < small.minInterval then EngineCall(s, t, small, ok)
                     else Untouched(s, t, ok);
        UpdateWithOthersKeeps(s, t, key, o, small);
      }
    }
  }

  lemma UpdateWithOthersKeeps(s: State, t: State, key: SessionKey, o: LocationOptions, small: LocationOptions)
    requires Inv(s) && key in s.sessions && o.size != 0 && SmallestOther(s.sessions, key, small)
    requires if o.minInterval < small.minInterval then EngineCall(s, t, o, true)
             else if s.sessions[key].minInterval < small.minInterval then EngineCall(s, t, small, true)
             else Untouched(s, t, true)
    ensures Inv(t.(sessions := t.sessions[key := o]))
  {
    MinWithOthers(s.sessions, key, o, small);
    if s.restarts == 0 {
      MinIsUnique(s.sessions, Least(s.sessions[key].minInterval, small.minInterval), s.engine.value.minInterval);
    }
  }

  lemma StopKeeps(s: State, t: State, key: SessionKey, ok: bool)
    requires Inv(s) && key in s.sessions && StopMultiplex(s, t, key, ok)
    ensures Inv(if ok then t.(sessions := t.sessions - {key}) else t)
  {
    if ok {
      if |s.sessions| == 1 {
        OnlySession(s.sessions, key);
        assert s.sessions - {key} == map[];
      } else {
        var small :| SmallestOther(s.sessions, key, small)
                  && if s.sessions[key].minInterval < small.minInterval then EngineCall(s, t, small, ok)
                     else Untouched(s, t, ok);
        StopWithOthersKeeps(s, t, key, small);
      }
    }
  }

  lemma StopWithOthersKeeps(s: State, t: State, key: SessionKey, small: LocationOptions)
    requires Inv(s) && key in s.sessions && SmallestOther(s.sessions, key, small)
    requires if s.sessions[key].minInterval < small.minInterval then EngineCall(s, t, small, true)
      else Untouched(s, t, true)
    ensures Inv(t.(sessions := t.sessions - {key}))
  {
    MinWithOthers(s.sessions, key, small, small);
    if s.restarts == 0 {
      MinIsUnique(s.sessions, Least(s.sessions[key].minInterval, small.minInterval), s.engine.value.minInterval);
    }
  }

  /** Every message keeps the law, given that a start has a key no session has. */
  lemma StepKeeps(s: State, c: Command, s': State)
    requires Inv(s) && Step(s, c, s')
    requires c.Start? ==> c.key !in s.sessions
    ensures Inv(s')
  {
    match c
    case Start(key, o, hasCallback, ok) =>
      if hasCallback && o.size != 0 {
        var t :| StartMultiplex(s, t, o, ok) && s' == if ok then t.(sessions := t.sessions[key := o]) else t;
        StartKeeps(s, t, key, o, ok);
      }
    case Update(key, o, ok) =>
      if key in s.sessions && o.size != 0 {
        var t :| UpdateMultiplex(s, t, key, o, ok) && s' == if ok then t.(sessions := t.sessions[key := o]) else t;
        UpdateKeeps(s, t, key, o, ok);
      }
    case Stop(key, ok) =>
      if key in s.sessions {
        var t :| StopMultiplex(s, t, key, ok) && s' == if ok then t.(sessions := t.sessions - {key}) else t;
        StopKeeps(s, t, key, ok);
      }
    case EngineUp =>
    case Restart =>
  }

  /**
   Without the premise on keys the law can fail. A start that the engine takes keeps it
   exactly if the key is fresh, or the new interval is no longer than the overwritten
   session's, or another session's is no longer than that.
   */
  lemma StartKeepsIff(s: State, t: State, key: SessionKey, o: LocationOptions)
    requires Inv(s) && s.restarts == 0 && o.size != 0 && StartMultiplex(s, t, o, true)
    ensures Inv(t.(sessions := t.sessions[key := o]))
       <==> || key !in s.sessions
            || o.minInterval <= s.sessions[key].minInterval
            || exists k :: k in s.sessions && k != key && s.sessions[k].minInterval <= s.sessions[key].minInterval
  {
    if key !in s.sessions {
      StartKeeps(s, t, key, o, true);
    } else {
      var small :| Smallest(s.sessions, small)
                && if o.minInterval < small.minInterval then EngineCall(s, t, o, true) else Untouched(s, t, true);
      ReusedKeyKeepsIff(s, t, key, o, small);
    }
  }

  lemma ReusedKeyKeepsIff(s: State, t: State, key: SessionKey, o: LocationOptions, small: LocationOptions)
    requires Inv(s) && s.restarts == 0 && o.size != 0 && key in s.sessions && Smallest(s.sessions, small)
    requires if o.minInterval < small.minInterval then EngineCall(s, t, o, true) else Untouched(s, t, true)
    ensures Inv(t.(sessions := t.sessions[key := o]))
       <==> || o.minInterval <= s.sessions[key].minInterval
            || exists k :: k in s.sessions && k != key && s.sessions[k].minInterval <= s.sessions[key].minInterval
  {
    var s' := t.(sessions := t.sessions[key := o]);
    MinIsUnique(s.sessions, small.minInterval, s.engine.value.minInterval);
    assert key in s'.sessions;
    var j :| j in s.sessions && s.sessions[j] == small;
    assert j in s'.sessions;
    if k :| k in s.sessions && k != key && s.sessions[k].minInterval <= s.sessions[key].minInterval {
      assert k in s'.sessions;
    }
  }

  /** It does fail: a session slowed down by a start that reuses its key leaves the engine at the old pace. */
  lemma StaleKeyBreaksLaw()
    ensures var key, slow := SessionKey(0, 1), LocationOptions(1, 500, SuplStandalone);
            var s := State(map[key := LocationOptions(1, 100, SuplStandalone)], Some(LocPosMode(Standalone, 100)), 0);
            var s' := s.(sessions := s.sessions[key := slow]);
            Inv(s) && Step(s, Start(key, slow, true, true), s') && !Inv(s')
  {
    var key, fast, slow := SessionKey(0, 1), LocationOptions(1, 100, SuplStandalone),
      LocationOptions(1, 500, SuplStandalone);
    var s := State(map[key := fast], Some(LocPosMode(Standalone, 100)), 0);
    assert Smallest(s.sessions, fast) by { assert key in s.sessions; }
    assert StartMultiplex(s, s, slow, true);
    assert IsMin(s.sessions, 100) by { assert key in s.sessions; }
    var s' := s.(sessions := s.sessions[key := slow]);
    assert s' == if true then s.(sessions := s.sessions[key := slow]) else s;
    assert !IsMin(s'.sessions, 100);
  }

  // ---------- Runs ----------

  /**
   A run: states and commands, where the starts use session ids generated at distinct
   counts below 2^32 - 2, in whatever order their messages arrive.
   */
  ghost predicate IsRun(states: seq<State>, commands: seq<Command>, counts: seq<nat>) {
    && |states| == |commands| + 1 && |counts| == |commands|
    && states[0] == INIT
    && (forall i :: 0 <= i < |commands| ==> Step(states[i], commands[i], states[i + 1]))
    && (forall i :: 0 <= i < |commands| && commands[i].Start? ==>
          counts[i] < 0xFFFF_FFFE && commands[i].key.id == IdAt(counts[i]))
    && (forall i, j :: 0 <= i < j < |commands| && commands[i].Start? && commands[j].Start? ==> counts[i] != counts[j])
  }

  /** Every session was started by an earlier command with its key. */
  ghost predicate StartedBefore(sessions: Sessions, commands: seq<Command>, n: nat)
    requires n <= |commands|
  {
    forall k :: k in sessions ==> exists i :: 0 <= i < n && commands[i].Start? && commands[i].key == k
  }

  lemma StepStarts(s: State, commands: seq<Command>, n: nat, s': State)
    requires n < |commands| && Step(s, commands[n], s') && StartedBefore(s.sessions, commands, n)
    ensures StartedBefore(s'.sessions, commands, n + 1)
  {
  }

  lemma KeysDiffer(states: seq<State>, commands: seq<Command>, counts: seq<nat>, i: nat, j: nat)
    requires IsRun(states, commands, counts) && i < j < |commands| && commands[i].Start? && commands[j].Start?
    ensures commands[i].key != commands[j].key
  {
    IdsRepeat(counts[i], counts[j]);
  }

  lemma StartsFresh(states: seq<State>, commands: seq<Command>, counts: seq<nat>, n: nat)
    requires IsRun(states, commands, counts) && n < |commands| && commands[n].Start?
    requires StartedBefore(states[n].sessions, commands, n)
    ensures commands[n].key !in states[n].sessions
  {
    forall i | 0 <= i < n && commands[i].Start? ensures commands[i].key != commands[n].key {
      KeysDiffer(states, commands, counts, i, n);
    }
  }

  /**
   In every state of every run, the engine runs exactly when there are sessions, at the
   smallest interval among them, unless a restart is still queued.
   */
  lemma {:induction false} EngineRunsAtMinimum(states: seq<State>, commands: seq<Command>, counts: seq<nat>, n: nat)
    requires IsRun(states, commands, counts) && n <= |commands|
    ensures Inv(states[n]) && StartedBefore(states[n].sessions, commands, n)
  {
    if n > 0 {
      var m := n - 1;
      EngineRunsAtMinimum(states, commands, counts, m);
      assert Step(states[m], commands[m], states[m + 1]);
      if commands[m].Start? {
        StartsFresh(states, commands, counts, m);
      }
      StepKeeps(states[m], commands[m], states[n]);
      StepStarts(states[m], commands, m, states[n]);
    }
  }

  // ---------- Which sessions there are ----------

  /** What a command makes of what is saved of a session: a failed one, and one about another session, nothing. */
  function Settles(saved: Option<LocationOptions>, c: Command, key: SessionKey): Option<LocationOptions> {
    match c
    case Start(k, o, _, true) => if k == key then Some(o) else saved
    case Update(k, o, true) => if k == key then Some(o) else saved
    case Stop(k, true) => if k == key then None else saved
    case _ => saved
  }

  /** What the last successful command about a session leaves of it. */
  function Saved(commands: seq<Command>, key: SessionKey): Option<LocationOptions> {
    if commands == [] then None else Settles(Saved(commands[..|commands| - 1], key), commands[|commands| - 1], key)
  }

  function Lookup(sessions: Sessions, key: SessionKey): Option<LocationOptions> {
    if key in sessions then Some(sessions[key]) else None
  }

  /** The engine calls leave the sessions alone. */
  lemma StartSpares(s: State, t: State, o: LocationOptions, ok: bool)
    requires StartMultiplex(s, t, o, ok)
    ensures t.sessions == s.sessions
  {
  }

  lemma UpdateSpares(s: State, t: State, key: SessionKey, o: LocationOptions, ok: bool)
    requires key in s.sessions && UpdateMultiplex(s, t, key, o, ok)
    ensures t.sessions == s.sessions
  {
  }

  lemma StopSpares(s: State, t: State, key: SessionKey, ok: bool)
    requires key in s.sessions && StopMultiplex(s, t, key, ok)
    ensures t.sessions == s.sessions
  {
  }

  /** What an answered command makes of the sessions. */
  function SessionsAfter(sessions: Sessions, c: Command): Sessions {
    match c
    case Start(k, o, _, true) => sessions[k := o]
    case Update(k, o, true) => sessions[k := o]
    case Stop(k, true) => sessions - {k}
    case _ => sessions
  }

  /** That is what a step makes of them, whatever the engine does. */
  lemma StepIs(s: State, c: Command, s': State)
    requires Step(s, c, s')
    ensures s'.sessions == SessionsAfter(s.sessions, c)
  {
    match c
    case Start(k, o, hasCallback, ok) =>
      if hasCallback && o.size != 0 {
        var t :| StartMultiplex(s, t, o, ok) && s' == if ok then t.(sessions := t.sessions[k := o]) else t;
        StartSpares(s, t, o, ok);
      }
    case Update(k, o, ok) =>
      if k in s.sessions && o.size != 0 {
        var t :| UpdateMultiplex(s, t, k, o, ok) && s' == if ok then t.(sessions := t.sessions[k := o]) else t;
        UpdateSpares(s, t, k, o, ok);
      }
    case Stop(k, ok) =>
      if k in s.sessions {
        var t :| StopMultiplex(s, t, k, ok) && s' == if ok then t.(sessions := t.sessions - {k}) else t;
        StopSpares(s, t, k, ok);
      }
    case _ =>
  }

  lemma StepSaves(s: State, c: Command, s': State, key: SessionKey)
    requires Step(s, c, s')
    ensures Lookup(s'.sessions, key) == Settles(Lookup(s.sessions, key), c, key)
  {
    StepIs(s, c, s');
  }

  lemma RunStepSaves(states: seq<State>, commands: seq<Command>, counts: seq<nat>, m: nat, key: SessionKey)
    requires IsRun(states, commands, counts) && m < |commands|
    ensures Lookup(states[m + 1].sessions, key) == Settles(Lookup(states[m].sessions, key), commands[m], key)
  {
    StepSaves(states[m], commands[m], states[m + 1], key);
  }

  lemma SavedMore(commands: seq<Command>, n: nat, key: SessionKey)
    requires n < |commands|
    ensures Saved(commands[..n + 1], key) == Settles(Saved(commands[..n], key), commands[n], key)
  {
    assert commands[..n + 1][..n] == commands[..n];
  }

  /**
   In every state of every run there is a session exactly if the last successful command
   about it was a start or an update, and its options are those of that command. The
   answers tell a client all about its sessions, whatever the engine was told.
   */
  lemma {:induction false} SessionsAreSaved(states: seq<State>, commands: seq<Command>, counts: seq<nat>, n: nat,
                                            key: SessionKey)
    requires IsRun(states, commands, counts) && n <= |commands|
    ensures Lookup(states[n].sessions, key) == Saved(commands[..n], key)
  {
    if n > 0 {
      SessionsAreSaved(states, commands, counts, n - 1, key);
      RunStepSaves(states, commands, counts, n - 1, key);
      SavedMore(commands, n - 1, key);
    }
  }

  // ---------- Which of them the engine runs for ----------

  /** The engine runs at the interval of o and in the mode o asks for. */
  predicate RunsFor(engine: LocPosMode, o: LocationOptions) {
    && engine.minInterval == o.minInterval
    && (engine.mode.MsBased? <==> o.mode.SuplMsb?)
    && (engine.mode.MsAssisted? <==> o.mode.SuplMsa?)
  }

  /** The engine runs for one of the sessions there are. */
  ghost predicate Serves(s: State) {
    s.restarts == 0 && s.engine.Some? ==> exists k :: k in s.sessions && RunsFor(s.engine.value, s.sessions[k])
  }

  /** The interval is shorter than those of all sessions but key. */
  ghost predicate Fastest(sessions: Sessions, key: SessionKey, interval: nat) {
    forall k :: k in sessions && k != key ==> interval < sessions[k].minInterval
  }

  /** The engine runs for a session other than key. */
  ghost predicate ServesOther(s: State, key: SessionKey) {
    s.engine.Some? && exists k :: k in s.sessions && k != key && RunsFor(s.engine.value, s.sessions[k])
  }

  /**
   What it takes for a change or an end of a session not to leave the engine running for
   none: the engine is started anew, or runs for another session, or for the new options.
   */
  ghost predicate KeepsServing(s: State, c: Command) {
    match c
    case Update(key, o, true) =>
      key in s.sessions && s.restarts == 0 ==>
        || Fastest(s.sessions, key, o.minInterval) || Fastest(s.sessions, key, s.sessions[key].minInterval)
        || ServesOther(s, key) || (s.engine.Some? && RunsFor(s.engine.value, o))
    case Stop(key, true) =>
      key in s.sessions && s.restarts == 0 ==>
        Fastest(s.sessions, key, s.sessions[key].minInterval) || ServesOther(s, key)
    case _ => true
  }

  /** The engine is started for the session k, or goes on for the session it ran for. */
  lemma ServesFor(s: State, k: SessionKey)
    requires k in s.sessions && (s.engine.Some? ==> RunsFor(s.engine.value, s.sessions[k]))
    ensures Serves(s)
  {
  }

  lemma StartServes(s: State, t: State, key: SessionKey, o: LocationOptions)
    requires Inv(s) && Serves(s) && key !in s.sessions && StartMultiplex(s, t, o, true)
    ensures Serves(t.(sessions := t.sessions[key := o]))
  {
    var s' := t.(sessions := t.sessions[key := o]);
    if t.engine == Some(ConvertOptions(o)) {
      ServesFor(s', key);
    } else if s.restarts == 0 && s.engine.Some? {
      var k :| k in s.sessions && RunsFor(s.engine.value, s.sessions[k]);
      ServesFor(s', k);
    }
  }

  lemma FastestIs(sessions: Sessions, key: SessionKey, small: LocationOptions, interval: nat)
    requires SmallestOther(sessions, key, small)
    ensures Fastest(sessions, key, interval) <==> interval < small.minInterval
  {
  }

  lemma AloneIsFastest(sessions: Sessions, key: SessionKey, interval: nat)
    requires key in sessions && |sessions| == 1
    ensures Fastest(sessions, key, interval)
  {
    OnlySession(sessions, key);
  }

  lemma UpdateServes(s: State, t: State, key: SessionKey, o: LocationOptions)
    requires Inv(s) && key in s.sessions && UpdateMultiplex(s, t, key, o, true)
    ensures Serves(t.(sessions := t.sessions[key := o])) <==> KeepsServing(s, Update(key, o, true))
  {
    if |s.sessions| == 1 {
      AloneIsFastest(s.sessions, key, o.minInterval);
      ServesFor(t.(sessions := t.sessions[key := o]), key);
    } else {
      var small :| SmallestOther(s.sessions, key, small)
                && if o.minInterval < small.minInterval then EngineCall(s, t, o, true)
                   else if s.sessions[key].minInterval < small.minInterval then EngineCall(s, t, small, true)
                   else Untouched(s, t, true);
      UpdateWithOthersServes(s, t, key, o, small);
    }
  }

  lemma UpdateWithOthersServes(s: State, t: State, key: SessionKey, o: LocationOptions, small: LocationOptions)
    requires Inv(s) && key in s.sessions && SmallestOther(s.sessions, key, small)
    requires if o.minInterval < small.minInterval then EngineCall(s, t, o, true)
             else if s.sessions[key].minInterval < small.minInterval then EngineCall(s, t, small, true)
             else Untouched(s, t, true)
    ensures Serves(t.(sessions := t.sessions[key := o])) <==> KeepsServing(s, Update(key, o, true))
  {
    var s' := t.(sessions := t.sessions[key := o]);
    FastestIs(s.sessions, key, small, o.minInterval);
    FastestIs(s.sessions, key, small, s.sessions[key].minInterval);
    if o.minInterval < small.minInterval {
      ServesFor(s', key);
    } else if s.sessions[key].minInterval < small.minInterval {
      var k :| k in s.sessions && k != key && s.sessions[k] == small;
      ServesFor(s', k);
    } else {
      LeftAlone(s, s', key, o);
    }
  }

  /** An engine that is left alone when a session takes other options. */
  lemma LeftAlone(s: State, s': State, key: SessionKey, o: LocationOptions)
    requires Inv(s) && key in s.sessions && s' == s.(sessions := s.sessions[key := o])
    ensures Serves(s') <==> (s.restarts == 0 ==> ServesOther(s, key) || (s.engine.Some? && RunsFor(s.engine.value, o)))
  {
    if k :| k in s.sessions && k != key && s.engine.Some? && RunsFor(s.engine.value, s.sessions[k]) {
      ServesFor(s', k);
    }
    if s.engine.Some? && RunsFor(s.engine.value, o) {
      ServesFor(s', key);
    }
  }

  lemma StopServes(s: State, t: State, key: SessionKey)
    requires Inv(s) && key in s.sessions && StopMultiplex(s, t, key, true)
    ensures Serves(t.(sessions := t.sessions - {key})) <==> KeepsServing(s, Stop(key, true))
  {
    if |s.sessions| == 1 {
      AloneIsFastest(s.sessions, key, s.sessions[key].minInterval);
    } else {
      var small :| SmallestOther(s.sessions, key, small)
                && if s.sessions[key].minInterval < small.minInterval then EngineCall(s, t, small, true)
                   else Untouched(s, t, true);
      StopWithOthersServes(s, t, key, small);
    }
  }

  lemma StopWithOthersServes(s: State, t: State, key: SessionKey, small: LocationOptions)
    requires Inv(s) && key in s.sessions && SmallestOther(s.sessions, key, small)
    requires if s.sessions[key].minInterval < small.minInterval then EngineCall(s, t, small, true)
             else Untouched(s, t, true)
    ensures Serves(t.(sessions := t.sessions - {key})) <==> KeepsServing(s, Stop(key, true))
  {
    var s' := t.(sessions := t.sessions - {key});
    FastestIs(s.sessions, key, small, s.sessions[key].minInterval);
    if s.sessions[key].minInterval < small.minInterval {
      var k :| k in s.sessions && k != key && s.sessions[k] == small;
      ServesFor(s', k);
    } else if ServesOther(s, key) {
      var k :| k in s.sessions && k != key && RunsFor(s.engine.value, s.sessions[k]);
      ServesFor(s', k);
    } else {
      assert s.restarts == 0 ==> s.engine.Some?;
    }
  }

  /** A refused call leaves everything as it was. */
  lemma RefusedIs(s: State, t: State, key: SessionKey, o: LocationOptions)
    ensures StartMultiplex(s, t, o, false) ==> t == s
    ensures key in s.sessions && UpdateMultiplex(s, t, key, o, false) ==> t == s
    ensures key in s.sessions && StopMultiplex(s, t, key, false) ==> t == s
  {
  }

  lemma StepServes(s: State, c: Command, s': State)
    requires Inv(s) && Serves(s) && Step(s, c, s')
    requires c.Start? ==> c.key !in s.sessions
    ensures Serves(s') <==> KeepsServing(s, c)
  {
    match c
    case Start(key, o, hasCallback, ok) =>
      if hasCallback && o.size != 0 {
        var t :| StartMultiplex(s, t, o, ok) && s' == if ok then t.(sessions := t.sessions[key := o]) else t;
        if ok { StartServes(s, t, key, o); } else { RefusedIs(s, t, key, o); }
      }
    case Update(key, o, ok) =>
      if key in s.sessions && o.size != 0 {
        var t :| UpdateMultiplex(s, t, key, o, ok) && s' == if ok then t.(sessions := t.sessions[key := o]) else t;
        if ok { UpdateServes(s, t, key, o); } else { RefusedIs(s, t, key, o); }
      }
    case Stop(key, ok) =>
      if key in s.sessions {
        var t :| StopMultiplex(s, t, key, ok) && s' == if ok then t.(sessions := t.sessions - {key}) else t;
        if ok { StopServes(s, t, key); } else { RefusedIs(s, t, key, s.sessions[key]); }
      }
    case EngineUp =>
    case Restart =>
      if s.sessions != map[] {
        var small :| Smallest(s.sessions, small) && s'.engine == Some(ConvertOptions(small));
        var k :| k in s.sessions && s.sessions[k] == small;
        ServesFor(s', k);
      }
  }

  /**
   In a run the engine always runs, with no restart queued, in the mode and at the interval
   of a session there is, exactly if every change and end of a session keeps it serving.
   */
  lemma {:induction false} EngineServesIff(states: seq<State>, commands: seq<Command>, counts: seq<nat>, n: nat)
    requires IsRun(states, commands, counts) && n <= |commands|
    ensures (forall i :: 0 <= i <= n ==> Serves(states[i])) <==>
            (forall i :: 0 <= i < n ==> KeepsServing(states[i], commands[i]))
  {
    if n > 0 {
      var m := n - 1;
      EngineServesIff(states, commands, counts, m);
      EngineRunsAtMinimum(states, commands, counts, m);
      if commands[m].Start? {
        StartsFresh(states, commands, counts, m);
      }
      if forall i :: 0 <= i <= m ==> Serves(states[i]) {
        StepServes(states[m], commands[m], states[n]);
      }
    }
  }

  /** So it is, for one, where the session changed or ended shares its interval with no other. */
  lemma UntiedKeepsServing(s: State, c: Command)
    requires Inv(s) && Serves(s) && (c.Update? || c.Stop?) && c.key in s.sessions
    requires forall k :: k in s.sessions && k != c.key ==> s.sessions[k].minInterval != s.sessions[c.key].minInterval
    ensures KeepsServing(s, c)
  {
    if s.restarts == 0 && !ServesOther(s, c.key) {
      assert RunsFor(s.engine.value, s.sessions[c.key]);
      assert Fastest(s.sessions, c.key, s.sessions[c.key].minInterval);
    }
  }

  /** With a tie it may go on in the mode of a session that has ended. */
  lemma TieLeavesMode()
    ensures var a, b := SessionKey(0, 2), SessionKey(0, 3);
            var msb, msa := LocationOptions(1, 100, SuplMsb), LocationOptions(1, 100, SuplMsa);
            var s := State(map[a := msb, b := msa], Some(LocPosMode(MsBased, 100)), 0);
            var s' := s.(sessions := map[b := msa]);
            Inv(s) && Serves(s) && Step(s, Stop(a, true), s') && Inv(s') && !Serves(s')
  {
    var a, b := SessionKey(0, 2), SessionKey(0, 3);
    var msb, msa := LocationOptions(1, 100, SuplMsb), LocationOptions(1, 100, SuplMsa);
    var s := State(map[a := msb, b := msa], Some(LocPosMode(MsBased, 100)), 0);
    var s' := s.(sessions := map[b := msa]);
    assert a in s.sessions && b in s.sessions && b in s'.sessions;
    assert s.sessions.Keys == {a, b} && s.sessions - {a} == s'.sessions;
    assert SmallestOther(s.sessions, a, msa);
    assert StopMultiplex(s, s, a, true);
    assert s' == s.(sessions := s.sessions - {a});
  }
}
