/**
 On-demand CPI: how GnssAdapter limits the rate at which it asks the framework for a
 coarse position. A timer flag remembers that the framework was asked lately.
 */
module Odcpi {

  datatype Request = Request(isEmergencyMode: bool, tbfMillis: nat)

  datatype Entry =
    | Started(request: Request)   // a START request from the modem
    | Stopped                     // a STOP request, or a restart of sessions
    | Expired                     // a timer expiry was processed
    | Called(request: Request)    // the framework was asked

  datatype State = State(requestActive: bool, timerActive: bool, request: Request, log: seq<Entry>)

  const INIT := State(false, false, Request(false, 0), [])

  function Call(s: State, r: Request): State {
    s.(requestActive := true, timerActive := true, log := s.log + [Called(r)])
  }

  /** reportOdcpiRequest of a START. */
  function Start(s0: State, r: Request): State {
    var s := s0.(log := s0.log + [Started(r)]);
    var t := if !s.requestActive && !s.timerActive then Call(s, r)
             else if !s.request.isEmergencyMode && r.isEmergencyMode then Call(s, r)
             else if !s.requestActive && s.timerActive then s.(requestActive := true)
             else s;
    t.(request := r)
  }

  /** reportOdcpiRequest of a STOP, and what restartSessions does. */
  function Stop(s: State): State {
    s.(requestActive := false, log := s.log + [Stopped])
  }

  function Expire(s0: State): State {
    var s := s0.(log := s0.log + [Expired]);
    if s.requestActive then Call(s, s.request) else s.(timerActive := false)
  }

  datatype Action = DoStart(r: Request) | DoStop | DoRestart | DoExpire

  function Next(s: State, a: Action): State {
    match a
    case DoStart(r) => Start(s, r)
    case DoStop => Stop(s)
    case DoRestart => Stop(s)
    case DoExpire => Expire(s)
  }

  function Run(actions: seq<Action>): State {
    if actions == [] then INIT else Next(Run(actions[..|actions| - 1]), actions[|actions| - 1])
  }

  // ---------- The law ----------

  /** The request of the last START before position n; at first, one for no emergency. */
  function LastRequest(log: seq<Entry>, n: nat): Request
    requires n <= |log|
  {
    if n == 0 then Request(false, 0)
    else if log[n - 1].Started? then log[n - 1].request
    else LastRequest(log, n - 1)
  }

  function LastEmergency(log: seq<Entry>, n: nat): bool
    requires n <= |log|
  {
    LastRequest(log, n).isEmergencyMode
  }

  /** The last START before position n has not been stopped. */
  predicate Active(log: seq<Entry>, n: nat)
    requires n <= |log|
  {
    n > 0 && (log[n - 1].Started? || (!log[n - 1].Stopped? && Active(log, n - 1)))
  }

  /** The framework was called before position n, and no expiry has come to nothing since. */
  predicate Timed(log: seq<Entry>, n: nat)
    requires n <= |log|
  {
    n > 0 && (log[n - 1].Called? || (!log[n - 1].Expired? && Timed(log, n - 1)))
  }

  /**
   What calls for the framework: a START while neither a request is active nor the timer,
   or one that turns a request into an emergency; and an expiry while a request is active.
   */
  predicate Due(log: seq<Entry>, i: nat)
    requires i < |log|
  {
    match log[i]
    case Started(r) => (!Active(log, i) && !Timed(log, i)) || (!LastEmergency(log, i) && r.isEmergencyMode)
    case Expired => Active(log, i)
    case _ => false
  }

  /** Just these are followed at once by a call, and it is for the request last started. */
  ghost predicate Prompt(log: seq<Entry>) {
    && (forall i :: 0 <= i < |log| ==> (Due(log, i) <==> i + 1 < |log| && log[i + 1].Called?))
    && (forall i :: 0 <= i < |log| && log[i].Called? ==> i > 0 && log[i].request == LastRequest(log, i))
  }

  /** The call at j answers a START that turned a non-emergency request into an emergency. */
  predicate Upgrade(log: seq<Entry>, j: nat)
    requires j < |log|
  {
    j > 0 && log[j - 1].Started? && log[j - 1].request.isEmergencyMode && !LastEmergency(log, j - 1)
  }

  /** Between any two calls a timer expiry was processed, or the second is an upgrade. */
  ghost predicate Limited(log: seq<Entry>) {
    forall i, j :: 0 <= i < j < |log| && log[i].Called? && log[j].Called? ==>
      Upgrade(log, j) || exists k :: i < k < j && log[k].Expired?
  }

  /** No call has been made since the last expiry. */
  ghost predicate Quiet(log: seq<Entry>) {
    forall i :: 0 <= i < |log| && log[i].Called? ==> exists k :: i < k < |log| && log[k].Expired?
  }

  ghost predicate Inv(s: State) {
    && (s.requestActive ==> s.timerActive)
    && (!s.timerActive ==> Quiet(s.log))
    && LastRequest(s.log, |s.log|) == s.request
    && Limited(s.log)
  }

  lemma {:induction false} LastRequestPrefix(log: seq<Entry>, more: seq<Entry>, n: nat)
    requires n <= |log|
    ensures LastRequest(log + more, n) == LastRequest(log, n)
  {
    if n > 0 {
      LastRequestPrefix(log, more, n - 1);
    }
  }

  /** An entry that is no call keeps the rate limited, and an expiry silences it. */
  lemma SilentEntry(log: seq<Entry>, e: Entry)
    requires Limited(log) && !e.Called?
    ensures Limited(log + [e])
    ensures Quiet(log) || e.Expired? ==> Quiet(log + [e])
  {
    var log' := log + [e];
    forall i, j | 0 <= i < j < |log'| && log'[i].Called? && log'[j].Called?
      ensures Upgrade(log', j) || exists k :: i < k < j && log'[k].Expired?
    {
      LastRequestPrefix(log, [e], j - 1);
      assert Upgrade(log, j) || exists k :: i < k < j && log[k].Expired?;
      if k :| i < k < j && log[k].Expired? {
        assert log'[k].Expired?;
      }
    }
    forall i | (Quiet(log) || e.Expired?) && 0 <= i < |log'| && log'[i].Called?
      ensures exists k :: i < k < |log'| && log'[k].Expired?
    {
      if e.Expired? {
        assert log'[|log|].Expired?;
      } else {
        var k :| i < k < |log| && log[k].Expired?;
        assert log'[k].Expired?;
      }
    }
  }

  /** A call keeps the rate limited if no call was made since the last expiry, or it is an upgrade. */
  lemma CallEntry(log: seq<Entry>, r: Request)
    requires Limited(log)
    requires Quiet(log) || Upgrade(log + [Called(r)], |log|)
    ensures Limited(log + [Called(r)])
  {
    var log' := log + [Called(r)];
    forall i, j | 0 <= i < j < |log'| && log'[i].Called? && log'[j].Called?
      ensures Upgrade(log', j) || exists k :: i < k < j && log'[k].Expired?
    {
      if j < |log| {
        LastRequestPrefix(log, [Called(r)], j - 1);
        assert Upgrade(log, j) || exists k :: i < k < j && log[k].Expired?;
        if k :| i < k < j && log[k].Expired? {
          assert log'[k].Expired?;
        }
      } else if Quiet(log) {
        var k :| i < k < |log| && log[k].Expired?;
        assert log'[k].Expired?;
      }
    }
  }

  lemma StartKeeps(s: State, r: Request)
    requires Inv(s)
    ensures Inv(Start(s, r))
  {
    var log1 := s.log + [Started(r)];
    SilentEntry(s.log, Started(r));
    assert LastRequest(log1, |log1|) == r;
    LastRequestPrefix(s.log, [Started(r)], |s.log|);
    var log2 := log1 + [Called(r)];
    LastRequestPrefix(log1, [Called(r)], |s.log|);
    LastRequestPrefix(log1, [Called(r)], |log1|);
    assert log2[|log1| - 1] == Started(r);
    if (!s.requestActive && !s.timerActive) || (!s.request.isEmergencyMode && r.isEmergencyMode) {
      CallEntry(log1, r);
    }
  }

  lemma StopKeeps(s: State)
    requires Inv(s)
    ensures Inv(Stop(s))
  {
    SilentEntry(s.log, Stopped);
    LastRequestPrefix(s.log, [Stopped], |s.log|);
  }

  lemma ExpireKeeps(s: State)
    requires Inv(s)
    ensures Inv(Expire(s))
  {
    var log1 := s.log + [Expired];
    SilentEntry(s.log, Expired);
    LastRequestPrefix(s.log, [Expired], |s.log|);
    LastRequestPrefix(log1, [Called(s.request)], |log1|);
    CallEntry(log1, s.request);
  }

  /** In every run, an active request implies an active timer flag, and the framework is not asked too often. */
  lemma {:induction false} RunsAreLimited(actions: seq<Action>)
    ensures Inv(Run(actions))
  {
    if actions != [] {
      var a := actions[|actions| - 1];
      RunsAreLimited(actions[..|actions| - 1]);
      match a
      case DoStart(r) => StartKeeps(Run(actions[..|actions| - 1]), r);
      case DoExpire => ExpireKeeps(Run(actions[..|actions| - 1]));
      case _ => StopKeeps(Run(actions[..|actions| - 1]));
    }
  }

  // ---------- When the framework is asked ----------

  lemma {:induction false} ActivePrefix(log: seq<Entry>, more: seq<Entry>, n: nat)
    requires n <= |log|
    ensures Active(log + more, n) == Active(log, n) && Timed(log + more, n) == Timed(log, n)
  {
    if n > 0 {
      ActivePrefix(log, more, n - 1);
    }
  }

  lemma DuePrefix(log: seq<Entry>, more: seq<Entry>, i: nat)
    requires i < |log|
    ensures Due(log + more, i) == Due(log, i) && LastRequest(log + more, i) == LastRequest(log, i)
  {
    ActivePrefix(log, more, i);
    LastRequestPrefix(log, more, i);
  }

  /** The state is what the log says it is. */
  ghost predicate Tells(s: State) {
    && Prompt(s.log)
    && s.requestActive == Active(s.log, |s.log|) && s.timerActive == Timed(s.log, |s.log|)
    && s.request == LastRequest(s.log, |s.log|)
  }

  lemma LastOf(log: seq<Entry>, e: Entry)
    ensures var log', n := log + [e], |log|;
            && LastRequest(log', n + 1) == (if e.Started? then e.request else LastRequest(log, n))
            && Active(log', n + 1) == (e.Started? || (!e.Stopped? && Active(log, n)))
            && Timed(log', n + 1) == (e.Called? || (!e.Expired? && Timed(log, n)))
            && (e.Started? || e.Expired? ==>
                  Due(log', n) == if e.Expired? then Active(log, n)
                                  else (!Active(log, n) && !Timed(log, n))
                                       || (!LastEmergency(log, n) && e.request.isEmergencyMode))
  {
    LastRequestPrefix(log, [e], |log|);
    ActivePrefix(log, [e], |log|);
  }

  /** An entry that calls for nothing. */
  lemma QuietEntry(log: seq<Entry>, e: Entry)
    requires Prompt(log) && !e.Called? && !Due(log + [e], |log|)
    ensures Prompt(log + [e])
  {
    var log' := log + [e];
    forall i | 0 <= i < |log| ensures Due(log', i) == Due(log, i) && LastRequest(log', i) == LastRequest(log, i) {
      DuePrefix(log, [e], i);
    }
  }

  /** An entry that is due, and the call that follows. */
  lemma DueEntry(log: seq<Entry>, e: Entry, r: Request)
    requires Prompt(log) && Due(log + [e], |log|) && r == LastRequest(log + [e], |log| + 1)
    ensures Prompt(log + [e] + [Called(r)])
  {
    var log1, log' := log + [e], log + [e] + [Called(r)];
    forall i | 0 <= i < |log| ensures Due(log', i) == Due(log, i) && LastRequest(log', i) == LastRequest(log, i) {
      DuePrefix(log, [e], i);
      DuePrefix(log1, [Called(r)], i);
    }
    DuePrefix(log1, [Called(r)], |log|);
    LastRequestPrefix(log1, [Called(r)], |log1|);
  }

  lemma EntryTells(s: State, e: Entry, r: Request)
    requires Tells(s) && !e.Called? && r == LastRequest(s.log + [e], |s.log| + 1)
    ensures var called, log1 := Due(s.log + [e], |s.log|), s.log + [e];
            Tells(State(e.Started? || (!e.Stopped? && s.requestActive),
                        called || (!e.Expired? && s.timerActive),
                        r, if called then log1 + [Called(r)] else log1))
  {
    LastOf(s.log, e);
    if Due(s.log + [e], |s.log|) {
      DueEntry(s.log, e, r);
      LastOf(s.log + [e], Called(r));
    } else {
      QuietEntry(s.log, e);
    }
  }

  lemma NextTells(s: State, a: Action)
    requires Tells(s)
    ensures Tells(Next(s, a))
  {
    var e := EventOf(a);
    LastOf(s.log, e);
    EntryTells(s, e, if e.Started? then e.request else s.request);
  }

  function EventOf(a: Action): Entry {
    match a
    case DoStart(r) => Started(r)
    case DoStop => Stopped
    case DoRestart => Stopped
    case DoExpire => Expired
  }

  /** The log without the calls. */
  function Events(log: seq<Entry>): seq<Entry> {
    if log == [] then []
    else Events(log[..|log| - 1]) + if log[|log| - 1].Called? then [] else [log[|log| - 1]]
  }

  lemma EventsMore(log: seq<Entry>, e: Entry)
    ensures Events(log + [e]) == Events(log) + if e.Called? then [] else [e]
  {
    assert (log + [e])[..|log + [e]| - 1] == log;
  }

  lemma NextLogs(s: State, a: Action)
    ensures Events(Next(s, a).log) == Events(s.log) + [EventOf(a)]
  {
    var e := EventOf(a);
    EventsMore(s.log, e);
    EventsMore(s.log + [e], Called(if e.Started? then e.request else s.request));
    assert Events(s.log) + [e] + [] == Events(s.log) + [e];
  }

  /**
   In every run the framework is asked exactly when it is due, at once, and for the
   request last started: not less than the limit allows, and nothing else.
   */
  lemma {:induction false} RunsArePrompt(actions: seq<Action>)
    ensures Tells(Run(actions))
    ensures Events(Run(actions).log) == seq(|actions|, i requires 0 <= i < |actions| => EventOf(actions[i]))
  {
    if actions != [] {
      var front, a := actions[..|actions| - 1], actions[|actions| - 1];
      RunsArePrompt(front);
      NextTells(Run(front), a);
      NextLogs(Run(front), a);
      assert seq(|actions|, i requires 0 <= i < |actions| => EventOf(actions[i]))
          == seq(|front|, i requires 0 <= i < |front| => EventOf(front[i])) + [EventOf(a)];
    }
  }

  // ---------- As it is built ----------

  class OdcpiAdapter {
    var mOdcpiRequestActive: bool
    var mActive: bool            // of mOdcpiTimer
    var mOdcpiRequest: Request
    var log: seq<Entry>

    ghost function Value(): State
      reads this
    {
      State(mOdcpiRequestActive, mActive, mOdcpiRequest, log)
    }

    constructor ()
      ensures Value() == INIT
    {
      mOdcpiRequestActive, mActive, mOdcpiRequest, log := false, false, Request(false, 0), [];
    }

    method RequestCb(request: Request)
      modifies this`log
      ensures log == old(log) + [Called(request)]
    {
      log := log + [Called(request)];
    }

    method StartTimer()
      modifies this`mActive
      ensures mActive
    {
      mActive := true;
    }

    method StopTimer()
      modifies this`mActive
      ensures !mActive
    {
      mActive := false;
    }

    method ReportOdcpiRequest(start: bool, request: Request)
      modifies this
      ensures Value() == Next(old(Value()), if start then DoStart(request) else DoStop)
    {
      if start {
        log := log + [Started(request)];
        if !mOdcpiRequestActive && !mActive {
          RequestCb(request);
          mOdcpiRequestActive := true;
          StartTimer();
        } else if !mOdcpiRequest.isEmergencyMode && request.isEmergencyMode {
          RequestCb(request);
          mOdcpiRequestActive := true;
          if mActive {
            StopTimer();
          }
          StartTimer();
        } else if !mOdcpiRequestActive && mActive {
          mOdcpiRequestActive := true;
        }
        mOdcpiRequest := request;
      } else {
        log := log + [Stopped];
        mOdcpiRequestActive := false;
      }
    }

    method OdcpiTimerExpire()
      modifies this
      ensures Value() == Next(old(Value()), DoExpire)
    {
      log := log + [Expired];
      if mOdcpiRequestActive {
        RequestCb(mOdcpiRequest);
        StopTimer();
        StartTimer();
      } else {
        StopTimer();
      }
    }
  }
}
