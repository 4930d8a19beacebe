/** What becomes of each start: the deadline it gets, when it is called back, and what ends it. */
module TimerStarts {
  import opened Options
  import opened HeapTree
  import opened TimerOrder
  import opened TimerProtocol
  import opened TimerInvariants
  import opened TimerTheorems

  // ---------- The starts of a run ----------

  /** A start that succeeded: of which timer, when, for how long, and whether it may wake the device. */
  datatype Started = Started(timer: nat, now: BootTime, timeOutInMs: nat, wakeOnExpire: bool)

  predicate Succeeds(s: State, a: Action) {
    a.Start? && Enabled(s, a) && s.timers[a.timer].mTimer.None? && a.available
  }

  function RecordOf(a: Action): Started
    requires a.Start?
  {
    Started(a.timer, a.now, a.timeOutInMs, a.wakeOnExpire)
  }

  /** The successful starts of a run, in order. */
  function Starts(actions: seq<Action>): seq<Started> {
    if actions == [] then []
    else
      var front, a := actions[..|actions| - 1], actions[|actions| - 1];
      Starts(front) + if Succeeds(Run(front), a) then [RecordOf(a)] else []
  }

  /** In nanoseconds from boot. */
  function DueAt(x: Started): int {
    x.now.Nanos() + x.timeOutInMs * 1_000_000
  }

  // ---------- What delegates remember of them ----------

  /** A delegate is for one of the starts: for its deadline, its container and, while it has a client, its timer. */
  ghost predicate Remembers(e: Delegate, starts: seq<Started>) {
    && e.start < |starts|
    && e.mFutureTime.Nanos() == DueAt(starts[e.start])
    && e.home == starts[e.start].wakeOnExpire
    && (e.mClient.Some? ==> e.mClient.value == starts[e.start].timer)
  }

  ghost predicate AllRemember(delegates: map<nat, Delegate>, starts: seq<Started>) {
    forall d :: d in delegates ==> Remembers(delegates[d], starts)
  }

  /** What the expire loop has popped are entries of living delegates of its container. */
  ghost predicate DrainedLive(draining: Option<Drain>, delegates: map<nat, Delegate>) {
    draining.Some? ==> forall e :: e in draining.value.drained ==>
      && e.id in delegates && e == EntryOf(delegates, e.id) && delegates[e.id].home == draining.value.container
  }

  ghost predicate Recorded(s: State, starts: seq<Started>) {
    s.started == |starts| && AllRemember(s.delegates, starts) && DrainedLive(s.draining, s.delegates)
  }

  /** The same delegates, but for clients that have left. */
  ghost predicate Kept(delegates: map<nat, Delegate>, delegates': map<nat, Delegate>) {
    && (forall d :: d in delegates' <==> d in delegates)
    && (forall d :: d in delegates ==>
          delegates'[d] == delegates[d] || delegates'[d] == delegates[d].(mClient := None, mContainer := None))
  }

  lemma KeptRecorded(s: State, s': State, starts: seq<Started>)
    requires Recorded(s, starts) && Kept(s.delegates, s'.delegates)
    requires s'.draining == s.draining && s'.started == s.started
    ensures Recorded(s', starts)
  {
  }

  /** The delegate a successful start makes. */
  lemma StartMakes(s: State, t: nat, d: nat, now: BootTime, ms: nat, wake: bool)
    requires t in s.timers && d !in s.delegates && ms < 0x1_0000_0000
    requires s.timers[t].mTimer.None? && s.timers[t].mLock in s.locks
    ensures var s' := StartStep(s, t, d, now, ms, wake, true);
            && d in s'.delegates && s'.delegates == s.delegates[d := s'.delegates[d]]
            && s'.delegates[d].mFutureTime.Nanos() == now.Nanos() + ms * 1_000_000
            && s'.delegates[d].home == wake && s'.delegates[d].start == s.started
            && s'.delegates[d].mClient == Some(t)
            && s'.started == s.started + 1 && s'.draining == s.draining
  {
    FutureTimeIsExact(now, ms);
  }

  lemma Joins(delegates: map<nat, Delegate>, starts: seq<Started>, d: nat, e: Delegate, x: Started)
    requires AllRemember(delegates, starts) && d !in delegates && Remembers(e, starts + [x])
    ensures AllRemember(delegates[d := e], starts + [x])
  {
  }

  lemma StartRecorded(s: State, a: Action, starts: seq<Started>)
    requires Recorded(s, starts) && Succeeds(s, a) && s.timers[a.timer].mLock in s.locks
    ensures Recorded(Next(s, a), starts + [RecordOf(a)])
  {
    StartMakes(s, a.timer, a.delegate, a.now, a.timeOutInMs, a.wakeOnExpire);
    Joins(s.delegates, starts, a.delegate, Next(s, a).delegates[a.delegate], RecordOf(a));
  }

  lemma FailedStartIs(s: State, a: Action)
    requires Inv(s) && a.Start? && Enabled(s, a) && !Succeeds(s, a)
    ensures Next(s, a) == s
  {
  }

  lemma StopKept(s: State, t: nat)
    requires Inv(s) && t in s.timers
    ensures var s' := StopStep(s, t);
            Kept(s.delegates, s'.delegates) && s'.draining == s.draining && s'.started == s.started
  {
    StopIs(s, t);
  }

  lemma DeletedKept(s: State, t: nat)
    requires t in s.timers
    ensures var s', s1 := DeleteTimerStep(s, t), StopStep(s, t);
            s'.delegates == s1.delegates && s'.draining == s1.draining && s'.started == s1.started
  {
  }

  lemma ExpireKept(s: State, d: nat)
    requires Inv(s) && d in s.delegates
    ensures var s' := ExpireDelegate(s, d);
            Kept(s.delegates, s'.delegates) && s'.draining == s.draining && s'.started == s.started
  {
    if s.delegates[d].mClient.Some? {
      StopIs(s, s.delegates[d].mClient.value);
    }
  }

  lemma ReceiveRecorded(s: State, now: BootTime, starts: seq<Started>)
    requires Inv(s) && Recorded(s, starts) && s.draining.None? && s.queue != []
    ensures Recorded(ReceiveStep(s, now), starts)
  {
    if !s.queue[0].MsgExpire? {
      HeadMessage(s.queue, s.delegates);
    }
    match s.queue[0]
    case MsgPush(b, d) => PushMessageIs(s, d);
    case MsgRemove(b, d) =>
      HeapAlive(s.containers[b].heap, s.delegates);
      RemoveMessageIs(s, d);
    case MsgExpire(b) =>
  }

  lemma DrainRecorded(s: State, starts: seq<Started>)
    requires Inv(s) && Recorded(s, starts) && s.draining.Some?
    ensures Recorded(DrainStep(s), starts)
  {
    var dr := s.draining.value;
    var c := s.containers[dr.container];
    HeapAlive(c.heap, s.delegates);
    if !DrainDone(c.heap, dr.now, dr.drained == []) {
      var d := c.heap.data.id;
      DrainPopIs(s);
      TopIsOwn(s.containers, s.queue, s.delegates, dr.container);
      ExpireDelegateKeeps(s, d);
      ExpireKept(s, d);
      KeptRecorded(s, ExpireDelegate(s, d), starts);
      PopCounts(EntryRanks, c.heap);
      PoppedRecorded(ExpireDelegate(s, d), starts);
    }
  }

  lemma TopIsOwn(containers: map<bool, Container>, queue: seq<Msg>, delegates: map<nat, Delegate>, b: bool)
    requires (forall b :: b in containers) && HoldsLiving(containers, queue, delegates) && containers[b].heap.Node?
    ensures var e := containers[b].heap.data;
            e.id in delegates && e == EntryOf(delegates, e.id) && delegates[e.id].home == b
  {
    assert HoldsIn(b, containers[b].heap, queue, delegates);
    assert Occ(containers[b].heap, containers[b].heap.data) > 0;
  }

  lemma PoppedRecorded(s: State, starts: seq<Started>)
    requires Recorded(s, starts) && s.draining.Some? && s.draining.value.container in s.containers
    requires s.containers[s.draining.value.container].heap.Node?
    requires var e := s.containers[s.draining.value.container].heap.data;
             e.id in s.delegates && e == EntryOf(s.delegates, e.id)
             && s.delegates[e.id].home == s.draining.value.container
    ensures Recorded(Popped(s), starts)
  {
    PopCounts(EntryRanks, s.containers[s.draining.value.container].heap);
  }

  lemma NextRecorded(s: State, a: Action, starts: seq<Started>)
    requires Inv(s) && Recorded(s, starts)
    ensures Recorded(Next(s, a), starts + if Succeeds(s, a) then [RecordOf(a)] else [])
  {
    assert starts + [] == starts;
    if Enabled(s, a) {
      match a
      case Start(_, _, _, _, _, _) =>
        if Succeeds(s, a) { StartRecorded(s, a, starts); } else { FailedStartIs(s, a); }
      case Stop(t) =>
        StopKept(s, t);
        KeptRecorded(s, StopStep(s, t), starts);
      case DeleteTimer(t) =>
        StopKept(s, t);
        DeletedKept(s, t);
        KeptRecorded(s, DeleteTimerStep(s, t), starts);
      case Receive(now) => ReceiveRecorded(s, now, starts);
      case DrainNext => DrainRecorded(s, starts);
      case _ =>
    }
  }

  lemma {:induction false} RunsRecorded(actions: seq<Action>)
    ensures Recorded(Run(actions), Starts(actions))
  {
    if actions != [] {
      var front, a := actions[..|actions| - 1], actions[|actions| - 1];
      RunsKeep(front);
      RunsRecorded(front);
      NextRecorded(Run(front), a, Starts(front));
    }
  }

  // ---------- The theorems ----------

  /**
   A start of a timer that is not running, given a container, makes it run: it owns the
   new delegate, whose deadline is the timeout after now, to the nanosecond, and whose
   push is queued for the container asked for. Any other start changes nothing.
   */
  lemma StartBegins(actions: seq<Action>, a: Action)
    requires a.Start? && Enabled(Run(actions), a)
    ensures var s, s' := Run(actions), Run(actions + [a]);
            if s.timers[a.timer].mTimer.None? && a.available then
              && a.timer in s'.timers && s'.timers[a.timer].mTimer == Some(a.delegate)
              && a.delegate in s'.delegates && s'.delegates[a.delegate].mClient == Some(a.timer)
              && s'.delegates[a.delegate].mFutureTime.Nanos() == a.now.Nanos() + a.timeOutInMs * 1_000_000
              && s'.delegates[a.delegate].home == a.wakeOnExpire && s'.delegates[a.delegate].start == s.started
              && s'.queue == s.queue + [MsgPush(a.wakeOnExpire, a.delegate)]
            else s' == s
  {
    RunsKeep(actions);
    RunSnoc(actions, a);
    var s := Run(actions);
    StartIs(s, a.timer, a.delegate, a.now, a.timeOutInMs, a.wakeOnExpire, a.available);
    if Succeeds(s, a) {
      StartMakes(s, a.timer, a.delegate, a.now, a.timeOutInMs, a.wakeOnExpire);
    }
  }

  /**
   In every run, every entry in a heap and every entry an Expire message has popped is of
   a start that asked for that container, and its time is that start's now plus timeout.
   */
  lemma EntriesCarryTimeouts(actions: seq<Action>, b: bool, e: Entry)
    ensures var s, starts := Run(actions), Starts(actions);
            && b in s.containers
            && (Occ(s.containers[b].heap, e) > 0
                || (s.draining.Some? && s.draining.value.container == b && e in s.draining.value.drained) ==>
                  && e.id in s.delegates && s.delegates[e.id].start < |starts|
                  && starts[s.delegates[e.id].start].wakeOnExpire == b
                  && e.time.Nanos() == DueAt(starts[s.delegates[e.id].start]))
  {
    RunsKeep(actions);
    RunsRecorded(actions);
    var s := Run(actions);
    if Occ(s.containers[b].heap, e) > 0
       || (s.draining.Some? && s.draining.value.container == b && e in s.draining.value.drained) {
      EntriesRemember(s, Starts(actions), b, e);
    }
  }

  lemma EntriesRemember(s: State, starts: seq<Started>, b: bool, e: Entry)
    requires (forall b :: b in s.containers) && HoldsLiving(s.containers, s.queue, s.delegates) && Recorded(s, starts)
    requires Occ(s.containers[b].heap, e) > 0
             || (s.draining.Some? && s.draining.value.container == b && e in s.draining.value.drained)
    ensures e.id in s.delegates && Remembers(s.delegates[e.id], starts) && s.delegates[e.id].home == b
    ensures e.time == s.delegates[e.id].mFutureTime
  {
    assert HoldsIn(b, s.containers[b].heap, s.queue, s.delegates);
  }

  /** An action other than a round of the expire loop calls nobody back. */
  lemma OnlyDrainCalls(s: State, a: Action)
    requires Inv(s) && a != DrainNext
    ensures Next(s, a).calledBack == s.calledBack
  {
    if Enabled(s, a) {
      match a
      case Stop(t) => StopCallsNobody(s, t);
      case DeleteTimer(t) => StopCallsNobody(s, t);
      case Receive(now) => ReceiveCallsNobody(s, now);
      case _ =>
    }
  }

  lemma StopCallsNobody(s: State, t: nat)
    requires t in s.timers
    ensures StopStep(s, t).calledBack == s.calledBack && DeleteTimerStep(s, t).calledBack == s.calledBack
  {
  }

  lemma ReceiveCallsNobody(s: State, now: BootTime)
    requires Inv(s) && s.draining.None? && s.queue != []
    ensures ReceiveStep(s, now).calledBack == s.calledBack
  {
    if !s.queue[0].MsgExpire? {
      HeadMessage(s.queue, s.delegates);
    }
    match s.queue[0]
    case MsgPush(b, d) => PushMessageIs(s, d);
    case MsgRemove(b, d) =>
      HeapAlive(s.containers[b].heap, s.delegates);
      RemoveMessageIs(s, d);
    case MsgExpire(b) =>
  }

  /** A round that pops calls back the popped delegate's start, unless that has ended before. */
  lemma RoundCalls(s: State)
    requires Inv(s) && s.draining.Some?
    ensures var dr := s.draining.value;
            var heap := s.containers[dr.container].heap;
            if DrainDone(heap, dr.now, dr.drained == []) then DrainStep(s).calledBack == s.calledBack
            else
              && heap.data.id in s.delegates
              && var x := s.delegates[heap.data.id].start;
                 DrainStep(s).calledBack == s.calledBack + if x in s.calledBack || x in s.stopped then [] else [x]
  {
    var dr := s.draining.value;
    var c := s.containers[dr.container];
    HeapAlive(c.heap, s.delegates);
    assert s.calledBack + [] == s.calledBack;
    if !DrainDone(c.heap, dr.now, dr.drained == []) {
      var d := c.heap.data.id;
      DrainPopIs(s);
      ExpireDelegateKeeps(s, d);
      if s.delegates[d].mClient.Some? {
        StopIs(s, s.delegates[d].mClient.value);
      }
    }
  }

  /**
   In every run, an action calls back at most one start, and only as a round of the expire
   loop that pops it from the container it asked for; its deadline, now plus timeout, has
   then passed by the message's clock unless it is the first the message pops.
   */
  lemma CallbackIsDue(actions: seq<Action>, a: Action)
    requires Run(actions + [a]).calledBack != Run(actions).calledBack
    ensures var s, s', starts := Run(actions), Run(actions + [a]), Starts(actions);
            && a == DrainNext && s.draining.Some? && s.draining.value.container in s.containers
            && var dr := s.draining.value;
            && s.containers[dr.container].heap.Node? && s.containers[dr.container].heap.data.id in s.delegates
            && var x := s.delegates[s.containers[dr.container].heap.data.id].start;
            && s'.calledBack == s.calledBack + [x] && x !in s.stopped && x < |starts|
            && starts[x].wakeOnExpire == dr.container
            && (dr.drained != [] ==> DueAt(starts[x]) <= dr.now.Nanos())
  {
    RunsKeep(actions);
    RunSnoc(actions, a);
    RunsRecorded(actions);
    var s := Run(actions);
    if a != DrainNext {
      OnlyDrainCalls(s, a);
    } else {
      RoundCalls(s);
      var dr := s.draining.value;
      var heap := s.containers[dr.container].heap;
      TopIsOwn(s.containers, s.queue, s.delegates, dr.container);
      OutRanksIsSooner(Entry(0, dr.now), heap.data);
    }
  }

  /**
   And a round that pops does call back, then and there, unless the start was stopped or
   called back before.
   */
  lemma PopCallsBack(actions: seq<Action>)
    requires Enabled(Run(actions), DrainNext)
    requires var s := Run(actions);
             !DrainDone(s.containers[s.draining.value.container].heap, s.draining.value.now,
                        s.draining.value.drained == [])
    ensures var s, s' := Run(actions), Run(actions + [DrainNext]);
            var e := s.containers[s.draining.value.container].heap.data;
            && e.id in s.delegates
            && (s.delegates[e.id].start in s'.calledBack <==> s.delegates[e.id].start !in s.stopped)
            && s'.draining.Some? && s'.draining.value.drained == s.draining.value.drained + [e]
  {
    RunsKeep(actions);
    RunSnoc(actions, DrainNext);
    var s := Run(actions);
    RoundCalls(s);
    DrainPopIs(s);
    PopCounts(EntryRanks, s.containers[s.draining.value.container].heap);
    ExpireDelegateKeeps(s, s.containers[s.draining.value.container].heap.data.id);
  }

  /** A stop or a delete by a client. */
  predicate Ends(a: Action, t: nat) {
    a == Stop(t) || a == DeleteTimer(t)
  }

  lemma SameTimer(timers: map<nat, Timer>, t: nat)
    requires t in timers && timers[t].mTimer.None?
    ensures timers[t := Timer(None, timers[t].mLock)] == timers
  {
    assert timers[t] == Timer(None, timers[t].mLock);
  }

  lemma SameRest(timers: map<nat, Timer>, t: nat, x: Timer)
    ensures timers[t := x] - {t} == timers - {t}
  {
  }

  lemma StoppedIs(s: State, t: nat)
    requires !s.fault && t in s.timers && s.timers[t].mLock in s.locks && Linked(s.timers, s.delegates)
    ensures var s' := StopStep(s, t);
            && s'.timers == s.timers[t := Timer(None, s.timers[t].mLock)]
            && (if s.timers[t].mTimer.Some? then
                  && s.timers[t].mTimer.value in s.delegates
                  && s'.stopped == s.stopped + {s.delegates[s.timers[t].mTimer.value].start}
                else s'.stopped == s.stopped)
  {
    StopIs(s, t);
    if s.timers[t].mTimer.None? {
      SameTimer(s.timers, t);
    }
  }

  lemma DeletedIs(s: State, t: nat)
    requires t in s.timers
    ensures var s', s1 := DeleteTimerStep(s, t), StopStep(s, t);
            s'.timers == s1.timers - {t} && s'.stopped == s1.stopped
  {
  }

  /** What a client's stop or delete of timer t makes of timers and record. */
  ghost predicate Ended(s: State, s': State, t: nat, a: Action)
    requires t in s.timers
  {
    && s'.timers == (if a == Stop(t) then s.timers[t := Timer(None, s.timers[t].mLock)] else s.timers - {t})
    && (if s.timers[t].mTimer.Some? then
          && s.timers[t].mTimer.value in s.delegates
          && s'.stopped == s.stopped + {s.delegates[s.timers[t].mTimer.value].start}
        else s'.stopped == s.stopped)
  }

  lemma NextEnds(s: State, t: nat, a: Action)
    requires Inv(s) && t in s.timers && Ends(a, t)
    ensures Ended(s, Next(s, a), t, a)
  {
    StoppedIs(s, t);
    if a == DeleteTimer(t) {
      DeletedIs(s, t);
      SameRest(s.timers, t, Timer(None, s.timers[t].mLock));
    }
  }

  /**
   Stopping or deleting a timer ends the start it is running, if any, and no other: the
   timer runs no more, or is gone, and the callback never comes, however the run goes on.
   */
  lemma StopEnds(actions: seq<Action>, t: nat, a: Action, more: seq<Action>)
    requires t in Run(actions).timers && Ends(a, t)
    ensures Ended(Run(actions), Run(actions + [a]), t, a)
    ensures var s := Run(actions);
            s.timers[t].mTimer.Some? ==>
              s.delegates[s.timers[t].mTimer.value].start !in Run(actions + [a] + more).calledBack
  {
    RunsKeep(actions);
    RunSnoc(actions, a);
    var s := Run(actions);
    NextEnds(s, t, a);
    if s.timers[t].mTimer.Some? {
      NoCallbackAfterStop(actions + [a], more, s.delegates[s.timers[t].mTimer.value].start);
    }
  }
}
