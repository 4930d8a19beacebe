/** What the timer service guarantees, whatever its clients do and however its threads interleave. */
module TimerTheorems {
  import opened Options
  import opened HeapTree
  import opened TimerOrder
  import opened TimerProtocol
  import opened TimerInvariants

  // ---------- Nothing is stranded ----------

  /** Whether d waits to be pushed, or is in its heap. */
  ghost predicate PushPending(s: State, d: nat)
    requires d in s.delegates
  {
    MsgPush(s.delegates[d].home, d) in s.queue
  }

  ghost predicate InHeap(s: State, d: nat)
    requires d in s.delegates && s.delegates[d].home in s.containers
  {
    Occ(s.containers[s.delegates[d].home].heap, EntryOf(s.delegates, d)) == 1
  }

  lemma TopIsSoonest(heap: Tree<Entry>, e: Entry)
    requires IsHeap(EntryRanks, heap) && Occ(heap, e) > 0
    ensures heap.data.time.Nanos() <= e.time.Nanos()
  {
    EntriesAreRanked();
    TopIsHighest(EntryRanks, heap, e);
    OutRanksIsSooner(e, heap.data);
  }

  lemma StartedIsPlaced(s: State, t: nat)
    requires (forall b :: b in s.containers) && Linked(s.timers, s.delegates) && QueueOk(s.queue, s.delegates)
    requires HoldsLiving(s.containers, s.queue, s.delegates) && NoneStranded(s.containers, s.queue, s.delegates)
    requires t in s.timers && s.timers[t].mTimer.Some?
    ensures var d := s.timers[t].mTimer.value;
            && d in s.delegates && PushPending(s, d) != InHeap(s, d)
            && (forall i, j :: 0 <= i < j < |s.queue| && s.queue[i].MsgPush? && s.queue[j].MsgPush? ==>
                  s.queue[i].delegate != d || s.queue[j].delegate != d)
  {
    var d := s.timers[t].mTimer.value;
    var b := s.delegates[d].home;
    assert HoldsIn(b, s.containers[b].heap, s.queue, s.delegates);
    assert Occ(s.containers[b].heap, EntryOf(s.delegates, d)) > 0 ==> !PushPending(s, d);
  }

  /**
   The delegate of every started timer is either in its heap, once, or has a Push pending,
   once; and while a heap holds anything the kernel is armed for the soonest deadline in
   it or an expiry is being handled.
   */
  lemma NoTimerIsStranded(actions: seq<Action>, t: nat)
    ensures var s := Run(actions);
            && (t in s.timers && s.timers[t].mTimer.Some? ==>
                  var d := s.timers[t].mTimer.value;
                  && d in s.delegates && s.delegates[d].home in s.containers
                  && PushPending(s, d) != InHeap(s, d)
                  && (forall i, j :: 0 <= i < j < |s.queue| && s.queue[i].MsgPush? && s.queue[j].MsgPush? ==>
                        s.queue[i].delegate != d || s.queue[j].delegate != d))
            && (forall b :: b in s.containers && Covered(b, s.containers[b], s.queue, s.draining))
            && (forall b, e :: b in s.containers && Occ(s.containers[b].heap, e) > 0 ==>
                  s.containers[b].heap.data.time.Nanos() <= e.time.Nanos())
  {
    RunsKeep(actions);
    var s := Run(actions);
    if t in s.timers && s.timers[t].mTimer.Some? {
      StartedIsPlaced(s, t);
    }
    forall b, e | b in s.containers && Occ(s.containers[b].heap, e) > 0
      ensures s.containers[b].heap.data.time.Nanos() <= e.time.Nanos()
    {
      TopIsSoonest(s.containers[b].heap, e);
    }
  }

  /** While any timer is running, the poll thread, the kernel or the message task can move. */
  lemma NeverStuck(actions: seq<Action>, t: nat, now: BootTime)
    requires t in Run(actions).timers && Run(actions).timers[t].mTimer.Some?
    ensures exists a :: Enabled(Run(actions), a)
                     && (a.Receive? || a.DrainNext? || a.Wake? || a.Disarm? || a.Unpoll? || a.SendExpire?)
  {
    RunsKeep(actions);
    SomethingEnabled(Run(actions), t, now);
  }

  lemma SomethingEnabled(s: State, t: nat, now: BootTime)
    requires (forall b :: b in s.containers) && Linked(s.timers, s.delegates)
    requires NoneStranded(s.containers, s.queue, s.delegates) && KernelOk(s.containers, s.queue, s.draining)
    requires t in s.timers && s.timers[t].mTimer.Some?
    ensures exists a :: Enabled(s, a)
                     && (a.Receive? || a.DrainNext? || a.Wake? || a.Disarm? || a.Unpoll? || a.SendExpire?)
  {
    var d := s.timers[t].mTimer.value;
    var b := s.delegates[d].home;
    if s.draining.Some? {
      assert Enabled(s, DrainNext);
    } else if s.queue != [] {
      assert Enabled(s, Receive(now));
    } else {
      assert Covered(b, s.containers[b], s.queue, s.draining);
      match s.containers[b].pc
      case Waiting => assert Enabled(s, Wake(b));
      case Woken => assert Enabled(s, Disarm(b));
      case Disarmed => assert Enabled(s, Unpoll(b));
      case Unpolled => assert Enabled(s, SendExpire(b));
    }
  }

  function Weight(m: Msg): nat {
    match m
    case MsgPush(_, _) => 4
    case MsgRemove(_, _) => 1
    case MsgExpire(_) => 2
  }

  function QueueWeight(queue: seq<Msg>): nat {
    if queue == [] then 0 else Weight(queue[0]) + QueueWeight(queue[1..])
  }

  lemma {:induction false} QueueWeightSnoc(queue: seq<Msg>, m: Msg)
    ensures QueueWeight(queue + [m]) == QueueWeight(queue) + Weight(m)
  {
    if queue != [] {
      assert (queue + [m])[1..] == queue[1..] + [m];
      QueueWeightSnoc(queue[1..], m);
    }
  }

  /** The work the message task still has: each message, each entry it may pop, the drain it is in. */
  function Work(s: State): nat
    requires forall b :: b in s.containers
  {
    QueueWeight(s.queue) + 3 * Count(s.containers[false].heap) + 3 * Count(s.containers[true].heap)
      + if s.draining.Some? then 1 else 0
  }

  lemma PushShrinks(s: State, d: nat)
    requires (forall b :: b in s.containers) && s.queue != [] && s.queue[0].MsgPush? && d in s.delegates
    ensures Work(Pushed(s, d)) < Work(s)
  {
    PushCounts(EntryRanks, s.containers[s.delegates[d].home].heap, EntryOf(s.delegates, d));
  }

  lemma RemoveNeverGrows(c: Container, e: Entry)
    requires IsHeap(EntryRanks, c.heap)
    ensures Count(ContainerRemove(c, e).heap) <= Count(c.heap)
  {
    EntriesAreRanked();
    RemoveFinds(EntryRanks, c.heap, e);
    if Remove(EntryRanks, c.heap, e).1 {
      RemoveCounts(EntryRanks, c.heap, e);
    }
  }

  lemma RemoveShrinks(s: State, d: nat)
    requires HeapsOk(s.containers) && s.queue != [] && s.queue[0].MsgRemove? && d in s.delegates
    requires s.delegates[d].mLock in s.locks && s.locks[s.delegates[d].mLock] > 0
    ensures Work(RemovedFrom(s, d)) < Work(s)
  {
    RemoveNeverGrows(s.containers[s.delegates[d].home], EntryOf(s.delegates, d));
  }

  lemma ReceiveShrinks(s: State, now: BootTime)
    requires Inv(s) && s.draining.None? && s.queue != []
    ensures (forall b :: b in ReceiveStep(s, now).containers) && Work(ReceiveStep(s, now)) < Work(s)
  {
    if !s.queue[0].MsgExpire? {
      HeadMessage(s.queue, s.delegates);
    }
    match s.queue[0]
    case MsgPush(b, d) =>
      PushMessageIs(s, d);
      PushShrinks(s, d);
    case MsgRemove(b, d) =>
      HeapAlive(s.containers[b].heap, s.delegates);
      RemoveMessageIs(s, d);
      RemoveShrinks(s, d);
    case MsgExpire(b) =>
  }

  lemma ExpireDelegateAdds(s: State, d: nat)
    requires Inv(s) && d in s.delegates
    ensures QueueWeight(ExpireDelegate(s, d).queue) <= QueueWeight(s.queue) + 1
  {
    if s.delegates[d].mClient.Some? {
      StopIs(s, s.delegates[d].mClient.value);
      QueueWeightSnoc(s.queue, MsgRemove(s.delegates[d].home, d));
    }
  }

  lemma PopShrinks(s: State, before: State)
    requires (forall b :: b in s.containers) && s.draining.Some? && s.containers[s.draining.value.container].heap.Node?
    requires before.containers == s.containers && before.draining == s.draining
    requires QueueWeight(s.queue) <= QueueWeight(before.queue) + 1
    ensures Work(Popped(s)) + 2 <= Work(before)
  {
    PopCounts(EntryRanks, s.containers[s.draining.value.container].heap);
  }

  lemma EndShrinks(s: State)
    requires (forall b :: b in s.containers) && s.draining.Some?
    ensures Work(DrainEnded(s)) < Work(s)
  {
  }

  lemma DrainShrinks(s: State)
    requires Inv(s) && s.draining.Some?
    ensures (forall b :: b in DrainStep(s).containers) && Work(DrainStep(s)) < Work(s)
    ensures var dr := s.draining.value;
            !DrainDone(s.containers[dr.container].heap, dr.now, dr.drained == []) ==> Work(DrainStep(s)) + 2 <= Work(s)
  {
    var c := s.containers[s.draining.value.container];
    HeapAlive(c.heap, s.delegates);
    if DrainDone(c.heap, s.draining.value.now, s.draining.value.drained == []) {
      EndShrinks(s);
    } else {
      var d := c.heap.data.id;
      DrainPopIs(s);
      ExpireDelegateKeeps(s, d);
      ExpireDelegateAdds(s, d);
      PopShrinks(ExpireDelegate(s, d), s);
    }
  }

  /**
   Every message, and every round of an Expire message, leaves the message task less to do,
   although the loop's callbacks queue messages of their own: left alone, it comes to rest.
   */
  lemma MessageTaskComesToRest(actions: seq<Action>, a: Action)
    requires Enabled(Run(actions), a) && (a.Receive? || a.DrainNext?)
    ensures var s := Run(actions);
            && (forall b :: b in s.containers && b in Next(s, a).containers)
            && Work(Next(s, a)) < Work(s)
  {
    RunsKeep(actions);
    match a
    case Receive(now) => ReceiveShrinks(Run(actions), now);
    case DrainNext => DrainShrinks(Run(actions));
  }

  // ---------- Memory ----------

  /** No run follows a pointer to a deleted delegate, timer or lock. */
  lemma NoRunFaults(actions: seq<Action>)
    ensures !Run(actions).fault
  {
    RunsKeep(actions);
  }

  /**
   The delegate of every successful start is either still allocated or was freed, and
   freed once. Neither a heap nor the queue names a delegate that is not allocated, and a
   delegate's Remove is never ahead of its Push.
   */
  lemma EachDelegateIsFreedOnce(actions: seq<Action>, x: nat)
    requires x < Run(actions).started
    ensures var s := Run(actions);
            && Distinct(s.freed)
            && (x in s.freed <==> !exists d :: d in s.delegates && s.delegates[d].start == x)
            && (forall b, e :: b in s.containers && Occ(s.containers[b].heap, e) > 0 ==> e.id in s.delegates)
            && (forall m :: m in s.queue && !m.MsgExpire? ==> m.delegate in s.delegates)
            && (forall i, j :: 0 <= i < j < |s.queue| && s.queue[i].MsgRemove? && s.queue[j].MsgPush? ==>
                  s.queue[i].delegate != s.queue[j].delegate)
  {
    RunsKeep(actions);
  }

  /** A shared lock lives exactly as long as a timer or a delegate holds it, and counts its holders. */
  lemma LockDiesWithLastHolder(actions: seq<Action>, k: nat)
    ensures var s := Run(actions);
            && (k in s.locks <==> TimersOn(s.timers, k) != {} || DelegatesOn(s.delegates, k) != {})
            && (k in s.locks ==> s.locks[k] == |TimersOn(s.timers, k)| + |DelegatesOn(s.delegates, k)|)
  {
    RunsKeep(actions);
    var s := Run(actions);
    if k !in s.locks {
      assert forall t :: t !in TimersOn(s.timers, k);
      assert forall d :: d !in DelegatesOn(s.delegates, k);
    }
  }

  // ---------- Callbacks ----------

  /**
   A delegate's client is timer t exactly when t's timer is that delegate. Every start is
   in exactly one of three conditions: its timer is running it, its callback ran (once),
   or a client stopped it.
   */
  lemma CallbackAtMostOnce(actions: seq<Action>, x: nat)
    requires x < Run(actions).started
    ensures var s := Run(actions);
            && (forall d, t :: d in s.delegates && s.delegates[d].mClient == Some(t) <==>
                  t in s.timers && d in s.delegates && s.timers[t].mTimer == Some(d))
            && Distinct(s.calledBack)
            && !(x in s.calledBack && x in s.stopped)
            && (x in s.calledBack || x in s.stopped <==>
                  !exists d :: d in s.delegates && s.delegates[d].start == x && s.delegates[d].mClient.Some?)
  {
    RunsKeep(actions);
    var s := Run(actions);
    if d :| d in s.delegates && s.delegates[d].start == x {
      if s.delegates[d].mClient.None? {
        forall c | c in s.delegates && s.delegates[c].start == x ensures c == d {
        }
      }
    }
  }

  /** s' comes after s: the record only grows. */
  ghost predicate Later(s: State, s': State) {
    s.calledBack <= s'.calledBack && s.stopped <= s'.stopped && s.freed <= s'.freed
  }

  lemma StopOnlyAdds(s: State, t: nat)
    requires t in s.timers
    ensures Later(s, StopLocked(s, t)) && Later(s, StopStep(s, t)) && Later(s, DeleteTimerStep(s, t))
  {
  }

  lemma ReceiveOnlyAdds(s: State, now: BootTime)
    requires Enabled(s, Receive(now))
    ensures Later(s, ReceiveStep(s, now))
  {
  }

  lemma ExpireOnlyAdds(s: State, d: nat)
    ensures Later(s, ExpireDelegate(s, d))
  {
  }

  lemma DrainOnlyAdds(s: State)
    requires Enabled(s, DrainNext)
    ensures Later(s, DrainStep(s))
  {
    var dr := s.draining.value;
    var c := s.containers[dr.container];
    if Alive(c.heap, s.delegates) && !DrainDone(c.heap, dr.now, dr.drained == []) {
      ExpireOnlyAdds(Popped(s), Pop(EntryRanks, c.heap).1.id);
    }
  }

  lemma StepsOnlyAdd(s: State, a: Action)
    ensures Later(s, Next(s, a))
  {
    if Enabled(s, a) {
      match a
      case Stop(t) => StopOnlyAdds(s, t);
      case DeleteTimer(t) => StopOnlyAdds(s, t);
      case Receive(now) => ReceiveOnlyAdds(s, now);
      case DrainNext => DrainOnlyAdds(s);
      case _ =>
    }
  }

  lemma {:induction false} RecordGrows(actions: seq<Action>, more: seq<Action>)
    ensures Later(Run(actions), Run(actions + more))
  {
    if more == [] {
      assert actions + more == actions;
    } else {
      var all := actions + more;
      assert all[..|all| - 1] == actions + more[..|more| - 1];
      RecordGrows(actions, more[..|more| - 1]);
      StepsOnlyAdd(Run(all[..|all| - 1]), all[|all| - 1]);
    }
  }

  /** Once a client has stopped a start, its callback never runs, however the run goes on. */
  lemma NoCallbackAfterStop(actions: seq<Action>, more: seq<Action>, x: nat)
    requires x in Run(actions).stopped
    ensures x !in Run(actions + more).calledBack
  {
    RecordGrows(actions, more);
    RunsKeep(actions + more);
  }

  // ---------- Draining ----------

  lemma DrainedAreDue(dr: Drain, heap: Tree<Entry>, e: Entry)
    requires DrainOk(dr, heap)
    ensures e in dr.drained <==> multiset(dr.drained)[e] > 0
    ensures e in dr.drained ==> Occ(dr.before, e) > 0 && (e == dr.before.data || e.time.Nanos() <= dr.now.Nanos())
  {
    if e in dr.drained {
      var i :| 0 <= i < |dr.drained| && dr.drained[i] == e;
    }
  }

  /**
   When the loop of an Expire message ends it has popped, in the order of their
   deadlines, exactly the timer that was on top and every timer due by now; the timers
   left in the heap are all due later.
   */
  lemma ExpireDrainsWhatIsDue(actions: seq<Action>, e: Entry)
    requires Enabled(Run(actions), DrainNext)
    requires var s := Run(actions);
             var dr := s.draining.value;
             DrainDone(s.containers[dr.container].heap, dr.now, dr.drained == [])
    ensures var s := Run(actions);
            var dr := s.draining.value;
            var heap := s.containers[dr.container].heap;
            && (forall i, j :: 0 <= i < j < |dr.drained| ==> dr.drained[i].time.Nanos() <= dr.drained[j].time.Nanos())
            && multiset(dr.drained)[e] + Occ(heap, e) == Occ(dr.before, e)
            && (e in dr.drained <==> Occ(dr.before, e) > 0 && (e == dr.before.data || e.time.Nanos() <= dr.now.Nanos()))
            && (Occ(heap, e) > 0 ==> dr.now.Nanos() < e.time.Nanos())
  {
    RunsKeep(actions);
    var s := Run(actions);
    var dr := s.draining.value;
    var heap := s.containers[dr.container].heap;
    forall i, j | 0 <= i < j < |dr.drained| ensures dr.drained[i].time.Nanos() <= dr.drained[j].time.Nanos() {
      OutRanksIsSooner(dr.drained[j], dr.drained[i]);
    }
    if heap.Node? {
      OutRanksIsSooner(Entry(0, dr.now), heap.data);
    }
    if Occ(heap, e) > 0 {
      TopIsSoonest(heap, e);
    }
    DrainedAreDue(dr, heap, e);
  }

  /**
   Popping from the loop is early, that is, before the deadline, exactly when it is the
   first pop of an Expire message whose heap has a top later than now.
   */
  lemma EarlyOnlyOnFirstPop(actions: seq<Action>)
    requires Enabled(Run(actions), DrainNext)
    requires var s := Run(actions);
             var dr := s.draining.value;
             !DrainDone(s.containers[dr.container].heap, dr.now, dr.drained == [])
    ensures var s := Run(actions);
            var dr := s.draining.value;
            var s' := DrainStep(s);
            && s'.draining.Some? && |s'.draining.value.drained| == |dr.drained| + 1
            && (dr.now.Nanos() < s'.draining.value.drained[|dr.drained|].time.Nanos()
                <==> dr.drained == [] && dr.before.Node? && dr.now.Nanos() < dr.before.data.time.Nanos())
  {
    RunsKeep(actions);
    var s := Run(actions);
    var dr := s.draining.value;
    var heap := s.containers[dr.container].heap;
    DrainPopIs(s);
    ExpireDelegateKeeps(s, heap.data.id);
    PopCounts(EntryRanks, heap);
    OutRanksIsSooner(Entry(0, dr.now), heap.data);
  }

  // ---------- An early callback ----------

  lemma RunSnoc(actions: seq<Action>, a: Action)
    ensures Run(actions + [a]) == Next(Run(actions), a)
  {
    assert (actions + [a])[..|actions + [a]| - 1] == actions;
  }

  /** A state with nothing to say of alarms, and nothing freed or drained yet. */
  function Snapshot(timers: map<nat, Timer>, delegates: map<nat, Delegate>, refs: nat, queue: seq<Msg>, c: Container,
                    started: nat, stopped: set<nat>): State {
    State(timers, delegates, map[0 := refs], queue, map[false := c, true := NO_TIMERS], None, false, started, [],
      stopped, [])
  }

  const ONE_SECOND: Deadline := Timespec(1, 0)
  const FIRST := Delegate(Some(0), 0, ONE_SECOND, Some(false), false, 0)
  const FIRST_RELEASED := Delegate(None, 0, ONE_SECOND, None, false, 0)
  const SECOND := Delegate(Some(0), 0, Timespec(11, 0), Some(false), false, 1)

  /** One timer, started for a second and pushed. */
  function Ticking(): State {
    Snapshot(map[0 := Timer(Some(0), 0)], map[0 := FIRST], 2, [],
             Container(Single(Entry(0, ONE_SECOND)), Some(ONE_SECOND), true, Waiting), 1, {})
  }

  /** The poll thread has seen it expire; the client has stopped it and started it again for ten seconds. */
  function Restarted(): State {
    Snapshot(map[0 := Timer(Some(1), 0)], map[0 := FIRST_RELEASED, 1 := SECOND], 3,
      [MsgRemove(false, 0), MsgPush(false, 1)],
             Container(Single(Entry(0, ONE_SECOND)), Some(ONE_SECOND), true, Woken), 2, {0})
  }

  /** The poll thread has queued its Expire behind the messages of the restart. */
  function Stale(): State {
    Snapshot(map[0 := Timer(Some(1), 0)], map[0 := FIRST_RELEASED, 1 := SECOND], 3,
             [MsgRemove(false, 0), MsgPush(false, 1), MsgExpire(false)],
             Container(Single(Entry(0, ONE_SECOND)), None, false, Waiting), 2, {0})
  }

  /** By the time the Expire is next, only the ten-second timer is left. */
  function Misread(): State {
    Snapshot(map[0 := Timer(Some(1), 0)], map[1 := SECOND], 2, [MsgExpire(false)],
             Container(Single(Entry(1, SECOND.mFutureTime)), Some(SECOND.mFutureTime), true, Waiting), 2, {0})
      .(freed := [0])
  }

  lemma TickingIsReached()
    ensures Next(Next(Next(INIT, NewTimer(0, 0)), Start(0, 0, Timespec(0, 0), 1000, false, true)),
      Receive(Timespec(0, 0)))
         == Ticking()
  {
    var s1 := Next(INIT, NewTimer(0, 0));
    assert s1 == Snapshot(map[0 := Timer(None, 0)], map[], 1, [], NO_TIMERS, 0, {});
    var s2 := Next(s1, Start(0, 0, Timespec(0, 0), 1000, false, true));
    assert s2 == Snapshot(map[0 := Timer(Some(0), 0)], map[0 := FIRST], 2, [MsgPush(false, 0)], NO_TIMERS, 1, {});
  }

  lemma RestartedIsReached()
    ensures Next(Next(Next(Ticking(), Wake(false)), Stop(0)), Start(0, 1, ONE_SECOND, 10_000, false, true)) ==
      Restarted()
  {
    var s1 := Next(Ticking(), Wake(false));
    var s2 := Next(s1, Stop(0));
    assert s2 == Snapshot(map[0 := Timer(None, 0)], map[0 := FIRST_RELEASED], 2, [MsgRemove(false, 0)],
                          Container(Single(Entry(0, ONE_SECOND)), Some(ONE_SECOND), true, Woken), 1, {0});
  }

  lemma StaleIsReached()
    ensures Next(Next(Next(Restarted(), Disarm(false)), Unpoll(false)), SendExpire(false)) == Stale()
  {
    var s1 := Next(Restarted(), Disarm(false));
    var s2 := Next(s1, Unpoll(false));
    assert s2.containers[false] == Container(Single(Entry(0, ONE_SECOND)), None, false, Unpolled);
  }

  /** The first delegate is gone, and the second on its way to an empty heap. */
  function Emptied(): State {
    Snapshot(map[0 := Timer(Some(1), 0)], map[1 := SECOND], 2, [MsgPush(false, 1), MsgExpire(false)],
             Container(Leaf, None, false, Waiting), 2, {0}).(freed := [0])
  }

  lemma EmptiedIsReached()
    ensures Next(Stale(), Receive(ONE_SECOND)) == Emptied()
  {
    var s := Stale().(queue := [MsgPush(false, 1), MsgExpire(false)]);
    assert Stale().queue[1..] == s.queue;
    assert Next(Stale(), Receive(ONE_SECOND)) == RemoveMessage(s, false, 0);
    SoleEntryRemoved();
    assert FreeDelegate(s.(containers := s.containers[false := NONE_ARMED]), 0) == Emptied();
  }

  const NONE_ARMED := Container(Leaf, None, false, Waiting)

  lemma SoleEntryRemoved()
    ensures ContainerRemove(Stale().containers[false], Entry(0, ONE_SECOND)) == NONE_ARMED
  {
  }

  lemma MisreadIsReached()
    ensures Next(Next(Stale(), Receive(ONE_SECOND)), Receive(ONE_SECOND)) == Misread()
  {
    EmptiedIsReached();
    assert Next(Emptied(), Receive(ONE_SECOND)) == Misread();
  }

  ghost predicate Reachable(s: State) {
    exists actions :: Run(actions) == s
  }

  lemma ReachNext(s: State, a: Action)
    requires Reachable(s)
    ensures Reachable(Next(s, a))
  {
    var actions :| Run(actions) == s;
    RunSnoc(actions, a);
  }

  lemma ReachThree(s: State, a: Action, b: Action, c: Action)
    requires Reachable(s)
    ensures Reachable(Next(Next(s, a), b)) && Reachable(Next(Next(Next(s, a), b), c))
  {
    ReachNext(s, a);
    ReachNext(Next(s, a), b);
    ReachNext(Next(Next(s, a), b), c);
  }

  /** At one second on the clock, the timer due at eleven seconds has been popped and called back. */
  ghost predicate FiredEarly(s: State) {
    && s.draining == Some(Drain(false, ONE_SECOND, Single(Entry(1, Timespec(11, 0))), [Entry(1, Timespec(11, 0))]))
    && s.calledBack == [1]
  }

  /**
   "No callback before its deadline" is false of the service. In this run a timer is
   restarted for ten seconds just as it expires; its callback runs at once, because the
   Expire message of the first start finds only the second one to pop.
   */
  lemma StaleExpireFiresEarly()
    ensures exists actions :: FiredEarly(Run(actions))
  {
    assert Run([]) == INIT;
    assert Reachable(INIT);
    TickingIsReached();
    ReachThree(INIT, NewTimer(0, 0), Start(0, 0, Timespec(0, 0), 1000, false, true), Receive(Timespec(0, 0)));
    RestartedIsReached();
    ReachThree(Ticking(), Wake(false), Stop(0), Start(0, 1, ONE_SECOND, 10_000, false, true));
    StaleIsReached();
    ReachThree(Restarted(), Disarm(false), Unpoll(false), SendExpire(false));
    MisreadIsReached();
    ReachThree(Stale(), Receive(ONE_SECOND), Receive(ONE_SECOND), DrainNext);
    ReachThree(Misread(), Receive(ONE_SECOND), DrainNext, DrainNext);
    EarlyIsReached();
    var actions :| Run(actions) == Next(Next(Misread(), Receive(ONE_SECOND)), DrainNext);
    assert FiredEarly(Run(actions));
  }

  lemma EarlyIsReached()
    ensures FiredEarly(Next(Next(Misread(), Receive(ONE_SECOND)), DrainNext))
  {
    var s1 := Next(Misread(), Receive(ONE_SECOND));
    assert s1 == Misread().(queue := [],
                                draining := Some(Drain(false, ONE_SECOND, Single(Entry(1, Timespec(11, 0))), [])));
    assert [] + [Entry(1, Timespec(11, 0))] == [Entry(1, Timespec(11, 0))];
  }
}
