/** What every step of the timer protocol keeps. */
module TimerInvariants {
  import opened Options
  import opened HeapTree
  import opened TimerOrder
  import opened TimerProtocol

  // ---------- The parts of the invariant ----------

  ghost predicate HeapsOk(containers: map<bool, Container>) {
    forall b :: b in containers && IsHeap(EntryRanks, containers[b].heap)
  }

  /** A timer's mTimer and a delegate's mClient name each other or nobody. */
  ghost predicate Linked(timers: map<nat, Timer>, delegates: map<nat, Delegate>) {
    && (forall t :: t in timers && timers[t].mTimer.Some? ==>
          timers[t].mTimer.value in delegates && delegates[timers[t].mTimer.value].mClient == Some(t))
    && (forall d :: d in delegates && delegates[d].mClient.Some? ==>
          var t := delegates[d].mClient.value;
          t in timers && timers[t].mTimer == Some(d) && timers[t].mLock == delegates[d].mLock)
    && (forall d :: d in delegates ==>
          delegates[d].mContainer == if delegates[d].mClient.Some? then Some(delegates[d].home) else None)
  }

  /**
   Push and Remove messages are about living delegates, no message is queued twice, a
   delegate's Remove comes after its Push, and it is queued exactly while nobody owns it.
   */
  ghost predicate QueueOk(queue: seq<Msg>, delegates: map<nat, Delegate>) {
    && (forall i :: 0 <= i < |queue| && !queue[i].MsgExpire? ==>
          && queue[i].delegate in delegates
          && queue[i].container == delegates[queue[i].delegate].home
          && (queue[i].MsgRemove? ==> delegates[queue[i].delegate].mClient.None?))
    && (forall i, j :: 0 <= i < j < |queue| && !queue[i].MsgExpire? ==> queue[i] != queue[j])
    && (forall i, j :: 0 <= i < j < |queue| && queue[i].MsgRemove? && queue[j].MsgPush? ==>
          queue[i].delegate != queue[j].delegate)
    && (forall d :: d in delegates && delegates[d].mClient.None? ==> MsgRemove(delegates[d].home, d) in queue)
  }

  ghost function EntryOf(delegates: map<nat, Delegate>, d: nat): Entry
    requires d in delegates
  {
    Entry(d, delegates[d].mFutureTime)
  }

  /** The heap of container b holds living delegates of b only, each once, after its Push was taken from the queue. */
  ghost predicate HoldsIn(b: bool, heap: Tree<Entry>, queue: seq<Msg>, delegates: map<nat, Delegate>) {
    forall e :: Occ(heap, e) > 0 ==>
      && e.id in delegates && e == EntryOf(delegates, e.id) && delegates[e.id].home == b
      && Occ(heap, e) == 1
      && MsgPush(b, e.id) !in queue
  }

  ghost predicate HoldsLiving(containers: map<bool, Container>, queue: seq<Msg>, delegates: map<nat, Delegate>)
    requires forall b :: b in containers
  {
    forall b :: HoldsIn(b, containers[b].heap, queue, delegates)
  }

  /** A delegate somebody owns is on its way to its heap, or in it. */
  ghost predicate NoneStranded(containers: map<bool, Container>, queue: seq<Msg>, delegates: map<nat, Delegate>)
    requires forall b :: b in containers
  {
    forall d :: d in delegates && delegates[d].mClient.Some? ==>
      || MsgPush(delegates[d].home, d) in queue
      || Occ(containers[delegates[d].home].heap, EntryOf(delegates, d)) > 0
  }

  /** The kernel is armed for the soonest timer, or an expiry is on its way through the poll thread or the queue. */
  ghost predicate Covered(b: bool, c: Container, queue: seq<Msg>, draining: Option<Drain>) {
    || c.heap.Leaf?
    || (c.polled && c.armed == Some(c.heap.data.time))
    || c.pc != Waiting
    || MsgExpire(b) in queue
    || (draining.Some? && draining.value.container == b)
  }

  ghost predicate KernelOk(containers: map<bool, Container>, queue: seq<Msg>, draining: Option<Drain>)
    requires forall b :: b in containers
  {
    forall b :: Covered(b, containers[b], queue, draining)
  }

  ghost function TimersOn(timers: map<nat, Timer>, k: nat): set<nat> {
    set t | t in timers && timers[t].mLock == k
  }

  ghost function DelegatesOn(delegates: map<nat, Delegate>, k: nat): set<nat> {
    set d | d in delegates && delegates[d].mLock == k
  }

  /** A lock lives exactly while a timer or a delegate holds it, and mRef counts them. */
  ghost predicate LocksOk(locks: map<nat, nat>, timers: map<nat, Timer>, delegates: map<nat, Delegate>) {
    && (forall k :: k in locks ==>
          locks[k] == |TimersOn(timers, k)| + |DelegatesOn(delegates, k)| && locks[k] > 0)
    && (forall t :: t in timers ==> timers[t].mLock in locks)
    && (forall d :: d in delegates ==> delegates[d].mLock in locks)
    && (forall t, u :: t in timers && u in timers && timers[t].mLock == timers[u].mLock ==> t == u)
  }

  ghost predicate Distinct(xs: seq<nat>) {
    forall i, j :: 0 <= i < j < |xs| ==> xs[i] != xs[j]
  }

  /** Every start is running, or was called back once, or was stopped; its delegate is allocated or was freed once. */
  ghost predicate HistoryOk(delegates: map<nat, Delegate>, started: nat, calledBack: seq<nat>, stopped: set<nat>,
                            freed: seq<nat>) {
    && Distinct(calledBack) && Distinct(freed)
    && (forall x :: x in calledBack ==> x < started && x !in stopped)
    && (forall x :: x in stopped ==> x < started)
    && (forall x :: x in freed ==> x < started && (x in calledBack || x in stopped))
    && (forall d :: d in delegates ==>
          && delegates[d].start < started
          && delegates[d].start !in freed
          && (delegates[d].mClient.Some? <==> delegates[d].start !in calledBack && delegates[d].start !in stopped))
    && (forall d, e :: d in delegates && e in delegates && delegates[d].start == delegates[e].start ==> d == e)
    && (forall x :: 0 <= x < started ==> x in freed || exists d :: d in delegates && delegates[d].start == x)
  }

  /** What the loop of an Expire message has popped so far. */
  ghost predicate DrainOk(dr: Drain, heap: Tree<Entry>) {
    && IsHeap(EntryRanks, dr.before)
    && (forall e :: Occ(dr.before, e) == Occ(heap, e) + multiset(dr.drained)[e])
    && RankSorted(EntryRanks, dr.drained)
    && (forall e, i :: Occ(heap, e) > 0 && 0 <= i < |dr.drained| ==> !Sooner(e, dr.drained[i]))
    && (dr.drained == [] ==> heap == dr.before)
    && (dr.drained != [] ==> dr.before.Node? && dr.drained[0] == dr.before.data)
    && (forall i :: 1 <= i < |dr.drained| ==> dr.drained[i].time.Nanos() <= dr.now.Nanos())
  }

  /** Where delegates are. */
  ghost predicate Placement(s: State) {
    && HeapsOk(s.containers)
    && Linked(s.timers, s.delegates)
    && QueueOk(s.queue, s.delegates)
    && HoldsLiving(s.containers, s.queue, s.delegates)
    && NoneStranded(s.containers, s.queue, s.delegates)
  }

  /** What the kernel, the locks, the expire loop and the record know of them. */
  ghost predicate Service(s: State)
    requires forall b :: b in s.containers
  {
    && KernelOk(s.containers, s.queue, s.draining)
    && LocksOk(s.locks, s.timers, s.delegates)
    && HistoryOk(s.delegates, s.started, s.calledBack, s.stopped, s.freed)
    && (s.draining.Some? ==> DrainOk(s.draining.value, s.containers[s.draining.value.container].heap))
  }

  ghost predicate Inv(s: State) {
    !s.fault && Placement(s) && Service(s)
  }

  // ---------- Facts about the parts ----------

  lemma {:induction false} HeapAlive(t: Tree<Entry>, delegates: map<nat, Delegate>)
    requires forall e :: Occ(t, e) > 0 ==> e.id in delegates && e == EntryOf(delegates, e.id)
    ensures Alive(t, delegates)
  {
    if t.Node? {
      assert Occ(t, t.data) > 0;
      forall e | Occ(t.left, e) > 0 || Occ(t.right, e) > 0
        ensures e.id in delegates && e == EntryOf(delegates, e.id)
      {
        assert Occ(t, e) > 0;
      }
      HeapAlive(t.left, delegates);
      HeapAlive(t.right, delegates);
    }
  }

  lemma HoldersUnchanged(timers: map<nat, Timer>, delegates: map<nat, Delegate>,
                         timers': map<nat, Timer>, delegates': map<nat, Delegate>, locks: map<nat, nat>)
    requires LocksOk(locks, timers, delegates)
    requires timers'.Keys == timers.Keys && forall t :: t in timers ==> timers'[t].mLock == timers[t].mLock
    requires delegates'.Keys == delegates.Keys && forall d :: d in delegates ==>
      delegates'[d].mLock == delegates[d].mLock
    ensures LocksOk(locks, timers', delegates')
  {
    forall t ensures t in timers' <==> t in timers {
      assert t in timers'.Keys <==> t in timers.Keys;
    }
    forall d ensures d in delegates' <==> d in delegates {
      assert d in delegates'.Keys <==> d in delegates.Keys;
    }
    forall k
      ensures TimersOn(timers', k) == TimersOn(timers, k) && DelegatesOn(delegates', k) == DelegatesOn(delegates, k)
    {
    }
  }

  lemma TimerJoins(timers: map<nat, Timer>, delegates: map<nat, Delegate>, locks: map<nat, nat>, t: nat, k: nat)
    requires LocksOk(locks, timers, delegates) && t !in timers && k !in locks
    ensures LocksOk(locks[k := 1], timers[t := Timer(None, k)], delegates)
  {
    var timers' := timers[t := Timer(None, k)];
    assert TimersOn(timers', k) == {t};
    assert DelegatesOn(delegates, k) == {};
    forall j | j != k ensures TimersOn(timers', j) == TimersOn(timers, j) {
    }
  }

  lemma DelegateJoins(timers: map<nat, Timer>, delegates: map<nat, Delegate>, locks: map<nat, nat>, d: nat, e: Delegate)
    requires LocksOk(locks, timers, delegates) && d !in delegates && e.mLock in locks
    ensures LocksOk(locks[e.mLock := locks[e.mLock] + 1], timers, delegates[d := e])
  {
    var delegates' := delegates[d := e];
    assert DelegatesOn(delegates', e.mLock) == DelegatesOn(delegates, e.mLock) + {d};
    forall j | j != e.mLock ensures DelegatesOn(delegates', j) == DelegatesOn(delegates, j) {
    }
  }

  ghost function Dropped(locks: map<nat, nat>, k: nat): map<nat, nat>
    requires k in locks && locks[k] > 0
  {
    if locks[k] == 1 then locks - {k} else locks[k := locks[k] - 1]
  }

  lemma TimerLeaves(timers: map<nat, Timer>, delegates: map<nat, Delegate>, locks: map<nat, nat>, t: nat)
    requires LocksOk(locks, timers, delegates) && t in timers
    ensures LocksOk(Dropped(locks, timers[t].mLock), timers - {t}, delegates)
  {
    var k, timers' := timers[t].mLock, timers - {t};
    assert TimersOn(timers', k) == TimersOn(timers, k) - {t} && t in TimersOn(timers, k);
    forall j | j != k ensures TimersOn(timers', j) == TimersOn(timers, j) {
    }
    if locks[k] == 1 {
      assert |DelegatesOn(delegates, k)| == 0;
      forall d | d in delegates ensures delegates[d].mLock != k {
        assert d !in DelegatesOn(delegates, k);
      }
    }
  }

  lemma DelegateLeaves(timers: map<nat, Timer>, delegates: map<nat, Delegate>, locks: map<nat, nat>, d: nat)
    requires LocksOk(locks, timers, delegates) && d in delegates
    ensures LocksOk(Dropped(locks, delegates[d].mLock), timers, delegates - {d})
  {
    var k, delegates' := delegates[d].mLock, delegates - {d};
    assert DelegatesOn(delegates', k) == DelegatesOn(delegates, k) - {d} && d in DelegatesOn(delegates, k);
    forall j | j != k ensures DelegatesOn(delegates', j) == DelegatesOn(delegates, j) {
    }
    if locks[k] == 1 {
      assert |TimersOn(timers, k)| == 0;
      forall t | t in timers ensures timers[t].mLock != k {
        assert t !in TimersOn(timers, k);
      }
      assert |DelegatesOn(delegates', k)| == 0;
      forall e | e in delegates' ensures delegates'[e].mLock != k {
        assert e !in DelegatesOn(delegates', k);
      }
    }
  }

  // ---------- Starting ----------

  lemma StartLinks(timers: map<nat, Timer>, delegates: map<nat, Delegate>, t: nat, d: nat, e: Delegate)
    requires Linked(timers, delegates) && t in timers && timers[t].mTimer.None? && d !in delegates
    requires e.mClient == Some(t) && e.mContainer == Some(e.home) && e.mLock == timers[t].mLock
    ensures Linked(timers[t := Timer(Some(d), e.mLock)], delegates[d := e])
  {
  }

  lemma StartQueues(queue: seq<Msg>, delegates: map<nat, Delegate>, d: nat, e: Delegate)
    requires QueueOk(queue, delegates) && d !in delegates && e.mClient.Some?
    ensures QueueOk(queue + [MsgPush(e.home, d)], delegates[d := e])
  {
    var queue' := queue + [MsgPush(e.home, d)];
    assert forall m :: m in queue ==> m in queue';
  }

  lemma StartHolds(containers: map<bool, Container>, queue: seq<Msg>, delegates: map<nat, Delegate>, d: nat,
                   e: Delegate)
    requires forall b :: b in containers
    requires HoldsLiving(containers, queue, delegates) && d !in delegates
    ensures HoldsLiving(containers, queue + [MsgPush(e.home, d)], delegates[d := e])
  {
  }

  lemma StartStrands(containers: map<bool, Container>, queue: seq<Msg>, delegates: map<nat, Delegate>, d: nat,
                     e: Delegate)
    requires forall b :: b in containers
    requires NoneStranded(containers, queue, delegates) && d !in delegates
    ensures NoneStranded(containers, queue + [MsgPush(e.home, d)], delegates[d := e])
  {
    assert MsgPush(e.home, d) in queue + [MsgPush(e.home, d)];
  }

  lemma MessageCovers(containers: map<bool, Container>, queue: seq<Msg>, draining: Option<Drain>, m: Msg)
    requires forall b :: b in containers
    requires KernelOk(containers, queue, draining)
    ensures KernelOk(containers, queue + [m], draining)
  {
    forall b ensures Covered(b, containers[b], queue + [m], draining) {
      assert Covered(b, containers[b], queue, draining);
    }
  }

  lemma StartLocks(timers: map<nat, Timer>, delegates: map<nat, Delegate>, locks: map<nat, nat>, t: nat, d: nat,
                   e: Delegate)
    requires LocksOk(locks, timers, delegates) && d !in delegates && t in timers && e.mLock == timers[t].mLock
    ensures LocksOk(locks[e.mLock := locks[e.mLock] + 1], timers[t := Timer(Some(d), e.mLock)], delegates[d := e])
  {
    DelegateJoins(timers, delegates, locks, d, e);
    HoldersUnchanged(timers, delegates[d := e], timers[t := Timer(Some(d), e.mLock)], delegates[d := e],
                     locks[e.mLock := locks[e.mLock] + 1]);
  }

  lemma StartRecords(delegates: map<nat, Delegate>, started: nat, calledBack: seq<nat>, stopped: set<nat>,
                     freed: seq<nat>,
                     d: nat, e: Delegate)
    requires HistoryOk(delegates, started, calledBack, stopped, freed) && d !in delegates
    requires e.start == started && e.mClient.Some?
    ensures HistoryOk(delegates[d := e], started + 1, calledBack, stopped, freed)
  {
    var delegates' := delegates[d := e];
    forall x | 0 <= x < started + 1
      ensures x in freed || exists d :: d in delegates' && delegates'[d].start == x
    {
      if x == started {
        assert d in delegates' && delegates'[d].start == x;
      } else if x !in freed {
        var c :| c in delegates && delegates[c].start == x;
        assert c in delegates' && delegates'[c].start == x;
      }
    }
  }

  ghost function Owned(s: State, t: nat, d: nat, e: Delegate): State
    requires e.mLock in s.locks
  {
    s.(timers := s.timers[t := Timer(Some(d), e.mLock)], delegates := s.delegates[d := e],
       locks := s.locks[e.mLock := s.locks[e.mLock] + 1],
       queue := s.queue + [MsgPush(e.home, d)], started := s.started + 1)
  }

  lemma OwnedPlaces(s: State, t: nat, d: nat, e: Delegate)
    requires Placement(s) && t in s.timers && s.timers[t].mTimer.None? && d !in s.delegates && e.mLock in s.locks
    requires e.mClient == Some(t) && e.mContainer == Some(e.home) && e.mLock == s.timers[t].mLock
    ensures Placement(Owned(s, t, d, e))
  {
    StartLinks(s.timers, s.delegates, t, d, e);
    StartQueues(s.queue, s.delegates, d, e);
    StartHolds(s.containers, s.queue, s.delegates, d, e);
    StartStrands(s.containers, s.queue, s.delegates, d, e);
  }

  lemma OwnedServes(s: State, t: nat, d: nat, e: Delegate)
    requires (forall b :: b in s.containers) && Service(s) && t in s.timers && d !in s.delegates
    requires e.mClient == Some(t) && e.mLock == s.timers[t].mLock && e.start == s.started
    ensures Service(Owned(s, t, d, e))
  {
    MessageCovers(s.containers, s.queue, s.draining, MsgPush(e.home, d));
    StartLocks(s.timers, s.delegates, s.locks, t, d, e);
    StartRecords(s.delegates, s.started, s.calledBack, s.stopped, s.freed, d, e);
  }

  lemma StartIs(s: State, t: nat, d: nat, now: BootTime, ms: nat, wake: bool, available: bool)
    requires !s.fault && t in s.timers && s.timers[t].mLock in s.locks && d !in s.delegates && ms < 0x1_0000_0000
    ensures var s' := StartStep(s, t, d, now, ms, wake, available);
            if s.timers[t].mTimer.None? && available then
              var e := s'.delegates[d];
              && d in s'.delegates && e.mClient == Some(t) && e.mContainer == Some(e.home)
              && e.mLock == s.timers[t].mLock && e.start == s.started
              && s' == Owned(s, t, d, e)
            else s' == s
  {
  }

  lemma StartKeeps(s: State, t: nat, d: nat, now: BootTime, ms: nat, wake: bool, available: bool)
    requires Inv(s) && t in s.timers && d !in s.delegates && ms < 0x1_0000_0000
    ensures Inv(StartStep(s, t, d, now, ms, wake, available))
  {
    StartIs(s, t, d, now, ms, wake, available);
    var s' := StartStep(s, t, d, now, ms, wake, available);
    if s.timers[t].mTimer.None? && available {
      OwnedPlaces(s, t, d, s'.delegates[d]);
      OwnedServes(s, t, d, s'.delegates[d]);
    }
  }

  // ---------- Stopping ----------

  /** The state once the delegate d of timer t has been told to go, with an account of how its start ended. */
  ghost function Released(s: State, t: nat, d: nat, calledBack: seq<nat>, stopped: set<nat>): State
    requires t in s.timers && d in s.delegates
  {
    var e := s.delegates[d];
    s.(timers := s.timers[t := s.timers[t].(mTimer := None)],
       delegates := s.delegates[d := e.(mClient := None, mContainer := None)],
       queue := s.queue + [MsgRemove(e.home, d)],
       calledBack := calledBack, stopped := stopped)
  }

  lemma ReleaseLinks(timers: map<nat, Timer>, delegates: map<nat, Delegate>, t: nat, d: nat)
    requires Linked(timers, delegates) && t in timers && timers[t].mTimer == Some(d)
    ensures Linked(timers[t := timers[t].(mTimer := None)],
                   delegates[d := delegates[d].(mClient := None, mContainer := None)])
  {
  }

  lemma ReleaseQueues(queue: seq<Msg>, delegates: map<nat, Delegate>, d: nat)
    requires QueueOk(queue, delegates) && d in delegates && delegates[d].mClient.Some?
    ensures QueueOk(queue + [MsgRemove(delegates[d].home, d)],
                    delegates[d := delegates[d].(mClient := None, mContainer := None)])
  {
    var queue' := queue + [MsgRemove(delegates[d].home, d)];
    assert forall m :: m in queue ==> m in queue';
    assert queue'[|queue|] in queue';
  }

  lemma ReleaseHolds(containers: map<bool, Container>, queue: seq<Msg>, delegates: map<nat, Delegate>, d: nat)
    requires forall b :: b in containers
    requires HoldsLiving(containers, queue, delegates) && d in delegates
    ensures HoldsLiving(containers, queue + [MsgRemove(delegates[d].home, d)],
                        delegates[d := delegates[d].(mClient := None, mContainer := None)])
  {
  }

  lemma ReleaseStrands(containers: map<bool, Container>, queue: seq<Msg>, delegates: map<nat, Delegate>, d: nat)
    requires forall b :: b in containers
    requires NoneStranded(containers, queue, delegates) && d in delegates
    ensures NoneStranded(containers, queue + [MsgRemove(delegates[d].home, d)],
                         delegates[d := delegates[d].(mClient := None, mContainer := None)])
  {
  }

  /** How the start of a released delegate ended: called back by the expire loop, or stopped by a client. */
  ghost predicate Ended(x: nat, calledBack: seq<nat>, stopped: set<nat>, calledBack': seq<nat>, stopped': set<nat>) {
    || (calledBack' == calledBack + [x] && stopped' == stopped)
    || (calledBack' == calledBack && stopped' == stopped + {x})
  }

  lemma ReleaseRecords(delegates: map<nat, Delegate>, started: nat, calledBack: seq<nat>, stopped: set<nat>,
                       freed: seq<nat>,
                       d: nat, calledBack': seq<nat>, stopped': set<nat>)
    requires HistoryOk(delegates, started, calledBack, stopped, freed) && d in delegates && delegates[d].mClient.Some?
    requires Ended(delegates[d].start, calledBack, stopped, calledBack', stopped')
    ensures HistoryOk(delegates[d := delegates[d].(mClient := None, mContainer := None)], started, calledBack',
      stopped', freed)
  {
    var delegates' := delegates[d := delegates[d].(mClient := None, mContainer := None)];
    assert forall x :: x in calledBack' <==>
      (x in calledBack || (|calledBack'| > |calledBack| && x == delegates[d].start));
    forall x | 0 <= x < started
      ensures x in freed || exists c :: c in delegates' && delegates'[c].start == x
    {
      if x !in freed {
        var c :| c in delegates && delegates[c].start == x;
        assert c in delegates' && delegates'[c].start == x;
      }
    }
  }

  lemma ReleasePlaces(s: State, t: nat, d: nat, calledBack: seq<nat>, stopped: set<nat>)
    requires Placement(s) && t in s.timers && s.timers[t].mTimer == Some(d)
    ensures Placement(Released(s, t, d, calledBack, stopped))
  {
    ReleaseLinks(s.timers, s.delegates, t, d);
    ReleaseQueues(s.queue, s.delegates, d);
    ReleaseHolds(s.containers, s.queue, s.delegates, d);
    ReleaseStrands(s.containers, s.queue, s.delegates, d);
  }

  lemma ReleaseServes(s: State, t: nat, d: nat, calledBack: seq<nat>, stopped: set<nat>)
    requires (forall b :: b in s.containers) && Service(s) && t in s.timers
    requires d in s.delegates && s.delegates[d].mClient.Some?
    requires Ended(s.delegates[d].start, s.calledBack, s.stopped, calledBack, stopped)
    ensures Service(Released(s, t, d, calledBack, stopped))
  {
    var s' := Released(s, t, d, calledBack, stopped);
    MessageCovers(s.containers, s.queue, s.draining, MsgRemove(s.delegates[d].home, d));
    HoldersUnchanged(s.timers, s.delegates, s'.timers, s'.delegates, s'.locks);
    ReleaseRecords(s.delegates, s.started, s.calledBack, s.stopped, s.freed, d, calledBack, stopped);
  }

  /** Releasing the delegate a timer owns, and recording how its start ended, keeps the invariant. */
  lemma ReleaseKeeps(s: State, t: nat, d: nat, calledBack: seq<nat>, stopped: set<nat>)
    requires Inv(s) && t in s.timers && s.timers[t].mTimer == Some(d)
    requires Ended(s.delegates[d].start, s.calledBack, s.stopped, calledBack, stopped)
    ensures Inv(Released(s, t, d, calledBack, stopped))
  {
    ReleasePlaces(s, t, d, calledBack, stopped);
    ReleaseServes(s, t, d, calledBack, stopped);
  }

  lemma StopIs(s: State, t: nat)
    requires !s.fault && t in s.timers && s.timers[t].mLock in s.locks && Linked(s.timers, s.delegates)
    ensures s.timers[t].mTimer.None? ==> StopLocked(s, t) == s == StopStep(s, t)
    ensures s.timers[t].mTimer.Some? ==>
      var d := s.timers[t].mTimer.value;
      && StopLocked(s, t) == Released(s, t, d, s.calledBack, s.stopped)
      && StopStep(s, t) == Released(s, t, d, s.calledBack, s.stopped + {s.delegates[d].start})
  {
  }

  lemma StopKeeps(s: State, t: nat)
    requires Inv(s) && t in s.timers
    ensures Inv(StopStep(s, t))
    ensures t in StopStep(s, t).timers && StopStep(s, t).timers[t] == Timer(None, s.timers[t].mLock)
  {
    StopIs(s, t);
    if s.timers[t].mTimer.Some? {
      var d := s.timers[t].mTimer.value;
      ReleaseKeeps(s, t, d, s.calledBack, s.stopped + {s.delegates[d].start});
    }
  }

  // ---------- Creating and deleting timers ----------

  lemma NewTimerLinks(timers: map<nat, Timer>, delegates: map<nat, Delegate>, t: nat, k: nat)
    requires Linked(timers, delegates) && t !in timers
    ensures Linked(timers[t := Timer(None, k)], delegates)
  {
  }

  lemma NewTimerKeeps(s: State, t: nat, k: nat)
    requires Inv(s) && t !in s.timers && k !in s.locks
    ensures Inv(NewTimerStep(s, t, k))
  {
    NewTimerLinks(s.timers, s.delegates, t, k);
    TimerJoins(s.timers, s.delegates, s.locks, t, k);
  }

  lemma DeleteTimerLinks(timers: map<nat, Timer>, delegates: map<nat, Delegate>, t: nat)
    requires Linked(timers, delegates) && t in timers && timers[t].mTimer.None?
    ensures Linked(timers - {t}, delegates)
  {
  }

  lemma DropIs(s: State, k: nat)
    requires k in s.locks && s.locks[k] > 0
    ensures DropLock(s, k) == s.(locks := Dropped(s.locks, k))
  {
  }

  lemma IdleTimerLeaves(s: State, t: nat)
    requires Inv(s) && t in s.timers && s.timers[t].mTimer.None?
    ensures Inv(DropLock(s.(timers := s.timers - {t}), s.timers[t].mLock))
  {
    DropIs(s.(timers := s.timers - {t}), s.timers[t].mLock);
    DeleteTimerLinks(s.timers, s.delegates, t);
    TimerLeaves(s.timers, s.delegates, s.locks, t);
  }

  lemma DeleteTimerKeeps(s: State, t: nat)
    requires Inv(s) && t in s.timers
    ensures Inv(DeleteTimerStep(s, t))
  {
    StopKeeps(s, t);
    IdleTimerLeaves(StopStep(s, t), t);
  }

  // ---------- Push messages ----------

  lemma TakeMessage(queue: seq<Msg>, delegates: map<nat, Delegate>)
    requires QueueOk(queue, delegates) && queue != [] && !queue[0].MsgRemove?
    ensures QueueOk(queue[1..], delegates)
    ensures queue[0].MsgPush? ==> queue[0] !in queue[1..]
  {
    assert forall m :: m in queue ==> m == queue[0] || m in queue[1..];
  }

  lemma TakeCovers(queue: seq<Msg>, m: Msg)
    requires queue != [] && m in queue && m != queue[0]
    ensures m in queue[1..]
  {
  }

  lemma PushHolds(containers: map<bool, Container>, queue: seq<Msg>, delegates: map<nat, Delegate>, d: nat)
    requires forall b :: b in containers
    requires QueueOk(queue, delegates) && HoldsLiving(containers, queue, delegates)
    requires queue != [] && d in delegates && queue[0] == MsgPush(delegates[d].home, d)
    ensures var b := delegates[d].home;
            HoldsLiving(containers[b := ContainerPush(containers[b], EntryOf(delegates, d))], queue[1..], delegates)
  {
    var b, e := delegates[d].home, EntryOf(delegates, d);
    var containers' := containers[b := ContainerPush(containers[b], e)];
    forall a ensures HoldsIn(a, containers'[a].heap, queue[1..], delegates) {
      assert HoldsIn(a, containers[a].heap, queue, delegates);
      if a == b {
        PushHoldsIn(containers[b].heap, queue, delegates, d);
      }
    }
  }

  lemma PushHoldsIn(heap: Tree<Entry>, queue: seq<Msg>, delegates: map<nat, Delegate>, d: nat)
    requires d in delegates && QueueOk(queue, delegates) && HoldsIn(delegates[d].home, heap, queue, delegates)
    requires queue != [] && queue[0] == MsgPush(delegates[d].home, d)
    ensures HoldsIn(delegates[d].home, Push(EntryRanks, heap, EntryOf(delegates, d)), queue[1..], delegates)
  {
    var b, e := delegates[d].home, EntryOf(delegates, d);
    TakeMessage(queue, delegates);
    assert Occ(heap, e) == 0;
    forall y | Occ(Push(EntryRanks, heap, e), y) > 0
      ensures && y.id in delegates && y == EntryOf(delegates, y.id) && delegates[y.id].home == b
              && Occ(Push(EntryRanks, heap, e), y) == 1 && MsgPush(b, y.id) !in queue[1..]
    {
      PushAdds(EntryRanks, heap, e, y);
    }
  }

  lemma PushStrands(containers: map<bool, Container>, queue: seq<Msg>, delegates: map<nat, Delegate>, d: nat)
    requires forall b :: b in containers
    requires NoneStranded(containers, queue, delegates)
    requires queue != [] && d in delegates && queue[0] == MsgPush(delegates[d].home, d)
    ensures var b := delegates[d].home;
            NoneStranded(containers[b := ContainerPush(containers[b], EntryOf(delegates, d))], queue[1..], delegates)
  {
    var b, e := delegates[d].home, EntryOf(delegates, d);
    var containers' := containers[b := ContainerPush(containers[b], e)];
    forall c | c in delegates && delegates[c].mClient.Some?
      ensures MsgPush(delegates[c].home, c) in queue[1..] ||
        Occ(containers'[delegates[c].home].heap, EntryOf(delegates, c)) > 0
    {
      PushAdds(EntryRanks, containers[b].heap, e, EntryOf(delegates, c));
      if c != d && MsgPush(delegates[c].home, c) in queue {
        TakeCovers(queue, MsgPush(delegates[c].home, c));
      }
    }
  }

  /** A push leaves the kernel armed for the top if it was so armed before, or the heap was empty. */
  lemma PushCovers(b: bool, c: Container, e: Entry, queue: seq<Msg>, draining: Option<Drain>)
    requires Covered(b, c, queue, draining) && queue != [] && queue[0].MsgPush?
    ensures Covered(b, ContainerPush(c, e), queue[1..], draining)
  {
    PushCounts(EntryRanks, c.heap, e);
    if MsgExpire(b) in queue {
      TakeCovers(queue, MsgExpire(b));
    }
    assert c.heap.Node? ==> Push(EntryRanks, c.heap, e).data == if OutRanks(EntryRanks, e, c.heap.data) then e
      else c.heap.data;
  }

  lemma PushKernel(containers: map<bool, Container>, queue: seq<Msg>, draining: Option<Drain>, b: bool, e: Entry)
    requires forall b :: b in containers
    requires KernelOk(containers, queue, draining) && queue != [] && queue[0].MsgPush?
    ensures KernelOk(containers[b := ContainerPush(containers[b], e)], queue[1..], draining)
  {
    var containers' := containers[b := ContainerPush(containers[b], e)];
    forall a ensures Covered(a, containers'[a], queue[1..], draining) {
      assert Covered(a, containers[a], queue, draining);
      if a == b {
        PushCovers(b, containers[b], e, queue, draining);
      } else if MsgExpire(a) in queue {
        TakeCovers(queue, MsgExpire(a));
      }
    }
  }

  lemma PushHeaps(containers: map<bool, Container>, b: bool, e: Entry)
    requires HeapsOk(containers)
    ensures HeapsOk(containers[b := ContainerPush(containers[b], e)])
  {
    EntriesAreRanked();
    PushKeepsHeap(EntryRanks, containers[b].heap, e);
  }

  ghost function Pushed(s: State, d: nat): State
    requires s.queue != [] && d in s.delegates && s.delegates[d].home in s.containers
  {
    var b := s.delegates[d].home;
    s.(queue := s.queue[1..],
       containers := s.containers[b := ContainerPush(s.containers[b], EntryOf(s.delegates, d))])
  }

  lemma PushMessageIs(s: State, d: nat)
    requires Inv(s) && s.draining.None? && s.queue != [] && d in s.delegates
    requires s.queue[0] == MsgPush(s.delegates[d].home, d)
    ensures PushMessage(s.(queue := s.queue[1..]), s.delegates[d].home, d) == Pushed(s, d)
  {
    HeapAlive(s.containers[s.delegates[d].home].heap, s.delegates);
  }

  lemma PushMessageKeeps(s: State, d: nat)
    requires Inv(s) && s.draining.None? && s.queue != [] && d in s.delegates
    requires s.queue[0] == MsgPush(s.delegates[d].home, d)
    ensures Inv(PushMessage(s.(queue := s.queue[1..]), s.delegates[d].home, d))
  {
    PushMessageIs(s, d);
    var b, e := s.delegates[d].home, EntryOf(s.delegates, d);
    TakeMessage(s.queue, s.delegates);
    PushHeaps(s.containers, b, e);
    PushHolds(s.containers, s.queue, s.delegates, d);
    PushStrands(s.containers, s.queue, s.delegates, d);
    PushKernel(s.containers, s.queue, s.draining, b, e);
  }

  // ---------- Remove messages ----------

  /** What removing the entry of a delegate from its container does to the other entries: nothing. */
  lemma ContainerRemoveOcc(c: Container, e: Entry, y: Entry)
    requires IsHeap(EntryRanks, c.heap) && Occ(c.heap, e) <= 1
    ensures Occ(ContainerRemove(c, e).heap, y) == if y == e then 0 else Occ(c.heap, y)
    ensures IsHeap(EntryRanks, ContainerRemove(c, e).heap)
  {
    EntriesAreRanked();
    RemoveKeepsHeap(EntryRanks, c.heap, e);
    RemoveFinds(EntryRanks, c.heap, e);
    if Remove(EntryRanks, c.heap, e).1 {
      RemoveTakesOne(EntryRanks, c.heap, e, y);
    }
  }

  lemma DelegateOnce(containers: map<bool, Container>, queue: seq<Msg>, delegates: map<nat, Delegate>, d: nat)
    requires forall b :: b in containers
    requires HoldsLiving(containers, queue, delegates) && d in delegates
    ensures Occ(containers[delegates[d].home].heap, EntryOf(delegates, d)) <= 1
  {
    assert HoldsIn(delegates[d].home, containers[delegates[d].home].heap, queue, delegates);
  }

  lemma RemoveQueues(queue: seq<Msg>, delegates: map<nat, Delegate>, d: nat)
    requires QueueOk(queue, delegates) && queue != [] && d in delegates && queue[0] == MsgRemove(delegates[d].home, d)
    ensures QueueOk(queue[1..], delegates - {d})
  {
    forall c | c in delegates - {d} && delegates[c].mClient.None?
      ensures MsgRemove(delegates[c].home, c) in queue[1..]
    {
      TakeCovers(queue, MsgRemove(delegates[c].home, c));
    }
  }

  lemma RemoveHolds(containers: map<bool, Container>, queue: seq<Msg>, delegates: map<nat, Delegate>, d: nat)
    requires HeapsOk(containers) && HoldsLiving(containers, queue, delegates)
    requires queue != [] && d in delegates
    ensures var b := delegates[d].home;
            HoldsLiving(containers[b := ContainerRemove(containers[b], EntryOf(delegates, d))],
                        queue[1..], delegates - {d})
  {
    var b, e := delegates[d].home, EntryOf(delegates, d);
    var containers' := containers[b := ContainerRemove(containers[b], e)];
    forall a ensures HoldsIn(a, containers'[a].heap, queue[1..], delegates - {d}) {
      assert HoldsIn(a, containers[a].heap, queue, delegates);
      if a == b {
        RemoveHoldsIn(containers[b], queue, delegates, d);
      }
    }
  }

  lemma RemoveHoldsIn(c: Container, queue: seq<Msg>, delegates: map<nat, Delegate>, d: nat)
    requires d in delegates && IsHeap(EntryRanks, c.heap) && HoldsIn(delegates[d].home, c.heap, queue, delegates)
    requires queue != []
    ensures HoldsIn(delegates[d].home, ContainerRemove(c, EntryOf(delegates, d)).heap, queue[1..], delegates - {d})
  {
    var b, e := delegates[d].home, EntryOf(delegates, d);
    forall y | Occ(ContainerRemove(c, e).heap, y) > 0
      ensures && y.id in delegates - {d} && y == EntryOf(delegates - {d}, y.id) && (delegates - {d})[y.id].home == b
              && Occ(ContainerRemove(c, e).heap, y) == 1 && MsgPush(b, y.id) !in queue[1..]
    {
      ContainerRemoveOcc(c, e, y);
      assert Occ(c.heap, y) > 0;
    }
  }

  lemma RemoveStrands(containers: map<bool, Container>, queue: seq<Msg>, delegates: map<nat, Delegate>, d: nat)
    requires HeapsOk(containers) && HoldsLiving(containers, queue, delegates)
    requires NoneStranded(containers, queue, delegates)
    requires queue != [] && d in delegates && queue[0] == MsgRemove(delegates[d].home, d)
    ensures var b := delegates[d].home;
            NoneStranded(containers[b := ContainerRemove(containers[b], EntryOf(delegates, d))],
                         queue[1..], delegates - {d})
  {
    var b, e := delegates[d].home, EntryOf(delegates, d);
    var containers' := containers[b := ContainerRemove(containers[b], e)];
    DelegateOnce(containers, queue, delegates, d);
    forall c | c in delegates - {d} && delegates[c].mClient.Some?
      ensures MsgPush(delegates[c].home, c) in queue[1..] ||
        Occ(containers'[delegates[c].home].heap, EntryOf(delegates, c)) > 0
    {
      ContainerRemoveOcc(containers[b], e, EntryOf(delegates, c));
      if MsgPush(delegates[c].home, c) in queue {
        TakeCovers(queue, MsgPush(delegates[c].home, c));
      }
    }
  }

  /** A removal rearms the kernel when it took the top; else the top, and the kernel, stay as they were. */
  lemma RemoveCovers(b: bool, c: Container, e: Entry, queue: seq<Msg>, draining: Option<Drain>)
    requires Covered(b, c, queue, draining) && queue != [] && queue[0].MsgRemove?
    ensures Covered(b, ContainerRemove(c, e), queue[1..], draining)
  {
    if MsgExpire(b) in queue {
      TakeCovers(queue, MsgExpire(b));
    }
    if c.heap.Node? && c.heap.data != e {
      RemoveKeepsTop(EntryRanks, c.heap, e);
    }
  }

  lemma RemoveKernel(containers: map<bool, Container>, queue: seq<Msg>, draining: Option<Drain>, b: bool, e: Entry)
    requires forall b :: b in containers
    requires KernelOk(containers, queue, draining) && queue != [] && queue[0].MsgRemove?
    ensures KernelOk(containers[b := ContainerRemove(containers[b], e)], queue[1..], draining)
  {
    var containers' := containers[b := ContainerRemove(containers[b], e)];
    forall a ensures Covered(a, containers'[a], queue[1..], draining) {
      assert Covered(a, containers[a], queue, draining);
      if a == b {
        RemoveCovers(b, containers[b], e, queue, draining);
      } else if MsgExpire(a) in queue {
        TakeCovers(queue, MsgExpire(a));
      }
    }
  }

  lemma RemoveLinks(timers: map<nat, Timer>, delegates: map<nat, Delegate>, d: nat)
    requires Linked(timers, delegates) && d in delegates && delegates[d].mClient.None?
    ensures Linked(timers, delegates - {d})
  {
  }

  lemma RemoveRecords(delegates: map<nat, Delegate>, started: nat, calledBack: seq<nat>, stopped: set<nat>,
                      freed: seq<nat>, d: nat)
    requires HistoryOk(delegates, started, calledBack, stopped, freed) && d in delegates && delegates[d].mClient.None?
    ensures HistoryOk(delegates - {d}, started, calledBack, stopped, freed + [delegates[d].start])
  {
    var freed' := freed + [delegates[d].start];
    assert forall x :: x in freed' <==> x in freed || x == delegates[d].start;
    forall x | 0 <= x < started
      ensures x in freed' || exists c :: c in delegates - {d} && delegates[c].start == x
    {
      if x !in freed' {
        var c :| c in delegates && delegates[c].start == x;
        assert c in delegates - {d} && delegates[c].start == x;
      }
    }
  }

  ghost function RemovedFrom(s: State, d: nat): State
    requires s.queue != [] && d in s.delegates && s.delegates[d].home in s.containers
    requires s.delegates[d].mLock in s.locks && s.locks[s.delegates[d].mLock] > 0
  {
    var e := s.delegates[d];
    s.(queue := s.queue[1..],
       containers := s.containers[e.home := ContainerRemove(s.containers[e.home], EntryOf(s.delegates, d))],
       delegates := s.delegates - {d},
       locks := Dropped(s.locks, e.mLock),
       freed := s.freed + [e.start])
  }

  lemma RemoveMessageIs(s: State, d: nat)
    requires s.queue != [] && d in s.delegates && s.delegates[d].home in s.containers
    requires s.delegates[d].mLock in s.locks && s.locks[s.delegates[d].mLock] > 0
    requires Alive(s.containers[s.delegates[d].home].heap, s.delegates)
    ensures RemoveMessage(s.(queue := s.queue[1..]), s.delegates[d].home, d) == RemovedFrom(s, d)
  {
  }

  lemma RemovePlaces(s: State, d: nat)
    requires Placement(s) && LocksOk(s.locks, s.timers, s.delegates)
    requires s.queue != [] && d in s.delegates && s.queue[0] == MsgRemove(s.delegates[d].home, d)
    ensures Placement(RemovedFrom(s, d))
  {
    var b, e := s.delegates[d].home, EntryOf(s.delegates, d);
    DelegateOnce(s.containers, s.queue, s.delegates, d);
    ContainerRemoveOcc(s.containers[b], e, e);
    RemoveLinks(s.timers, s.delegates, d);
    RemoveQueues(s.queue, s.delegates, d);
    RemoveHolds(s.containers, s.queue, s.delegates, d);
    RemoveStrands(s.containers, s.queue, s.delegates, d);
  }

  lemma RemoveServes(s: State, d: nat)
    requires (forall b :: b in s.containers) && Service(s) && s.draining.None?
    requires s.queue != [] && d in s.delegates && s.delegates[d].mClient.None?
    requires s.queue[0] == MsgRemove(s.delegates[d].home, d)
    ensures Service(RemovedFrom(s, d))
  {
    RemoveKernel(s.containers, s.queue, s.draining, s.delegates[d].home, EntryOf(s.delegates, d));
    DelegateLeaves(s.timers, s.delegates, s.locks, d);
    RemoveRecords(s.delegates, s.started, s.calledBack, s.stopped, s.freed, d);
  }

  lemma RemoveMessageKeeps(s: State, d: nat)
    requires Inv(s) && s.draining.None? && s.queue != [] && d in s.delegates
    requires s.queue[0] == MsgRemove(s.delegates[d].home, d)
    ensures Inv(RemoveMessage(s.(queue := s.queue[1..]), s.delegates[d].home, d))
  {
    HeapAlive(s.containers[s.delegates[d].home].heap, s.delegates);
    RemoveMessageIs(s, d);
    RemovePlaces(s, d);
    RemoveServes(s, d);
  }

  // ---------- Expire messages ----------

  lemma TakeHolds(containers: map<bool, Container>, queue: seq<Msg>, delegates: map<nat, Delegate>)
    requires forall b :: b in containers
    requires HoldsLiving(containers, queue, delegates) && NoneStranded(containers, queue, delegates)
    requires queue != [] && queue[0].MsgExpire?
    ensures HoldsLiving(containers, queue[1..], delegates) && NoneStranded(containers, queue[1..], delegates)
  {
    assert forall m :: m in queue ==> m == queue[0] || m in queue[1..];
  }

  lemma ExpireMessageKeeps(s: State, b: bool, now: BootTime)
    requires Inv(s) && s.draining.None? && s.queue != [] && s.queue[0] == MsgExpire(b)
    ensures Inv(s.(queue := s.queue[1..], draining := Some(Drain(b, now, s.containers[b].heap, []))))
  {
    var s' := s.(queue := s.queue[1..], draining := Some(Drain(b, now, s.containers[b].heap, [])));
    TakeMessage(s.queue, s.delegates);
    TakeHolds(s.containers, s.queue, s.delegates);
    forall a ensures Covered(a, s'.containers[a], s'.queue, s'.draining) {
      assert Covered(a, s.containers[a], s.queue, s.draining);
      if MsgExpire(a) in s.queue && a != b {
        TakeCovers(s.queue, MsgExpire(a));
      }
    }
  }

  lemma HeadMessage(queue: seq<Msg>, delegates: map<nat, Delegate>)
    requires QueueOk(queue, delegates) && queue != [] && !queue[0].MsgExpire?
    ensures queue[0].delegate in delegates && queue[0].container == delegates[queue[0].delegate].home
  {
  }

  lemma ReceiveKeeps(s: State, now: BootTime)
    requires Inv(s) && s.draining.None? && s.queue != []
    ensures Inv(ReceiveStep(s, now))
  {
    if !s.queue[0].MsgExpire? {
      HeadMessage(s.queue, s.delegates);
    }
    match s.queue[0]
    case MsgPush(b, d) => PushMessageKeeps(s, d);
    case MsgRemove(b, d) => RemoveMessageKeeps(s, d);
    case MsgExpire(b) => ExpireMessageKeeps(s, b, now);
  }

  lemma ExpireQueues(queue: seq<Msg>, delegates: map<nat, Delegate>, b: bool)
    requires QueueOk(queue, delegates)
    ensures QueueOk(queue + [MsgExpire(b)], delegates)
  {
    assert forall m :: m in queue ==> m in queue + [MsgExpire(b)];
  }

  /** Messages other than Push, and what a container tells the kernel, do not matter to where delegates are. */
  lemma SameHeapHolds(containers: map<bool, Container>, containers': map<bool, Container>,
                      queue: seq<Msg>, queue': seq<Msg>, delegates: map<nat, Delegate>)
    requires HeapsOk(containers) && HoldsLiving(containers, queue, delegates)
    requires NoneStranded(containers, queue, delegates)
    requires forall b :: b in containers' && containers'[b].heap == containers[b].heap
    requires forall b, d :: MsgPush(b, d) in queue' <==> MsgPush(b, d) in queue
    ensures HeapsOk(containers') && HoldsLiving(containers', queue', delegates)
    ensures NoneStranded(containers', queue', delegates)
  {
  }

  /** A change of a container that leaves its heap alone leaves all delegates where they are. */
  lemma SameHeapPlaces(s: State, s': State, b: bool, c: Container)
    requires Placement(s) && c.heap == s.containers[b].heap
    requires s'.containers == s.containers[b := c] && s'.timers == s.timers && s'.delegates == s.delegates
    requires s'.queue == s.queue || s'.queue == s.queue + [MsgExpire(b)]
    ensures Placement(s')
  {
    SameHeapHolds(s.containers, s'.containers, s.queue, s'.queue, s.delegates);
    ExpireQueues(s.queue, s.delegates, b);
  }

  ghost function DrainEnded(s: State): State
    requires s.draining.Some? && s.draining.value.container in s.containers
  {
    var b := s.draining.value.container;
    s.(containers := s.containers[b := UpdateSoonestTime(s.containers[b], None)], draining := None)
  }

  lemma DrainEndServes(s: State)
    requires (forall b :: b in s.containers) && Service(s) && s.draining.Some?
    ensures Service(DrainEnded(s))
  {
    var s' := DrainEnded(s);
    forall a ensures Covered(a, s'.containers[a], s'.queue, s'.draining) {
      assert Covered(a, s.containers[a], s.queue, s.draining);
    }
  }

  lemma DrainEndKeeps(s: State)
    requires Inv(s) && s.draining.Some?
    ensures Inv(DrainEnded(s))
  {
    var b := s.draining.value.container;
    SameHeapPlaces(s, DrainEnded(s), b, UpdateSoonestTime(s.containers[b], None));
    DrainEndServes(s);
  }

  /** The delegate on top of the heap, told that it expired. */
  lemma ExpireDelegateKeeps(s: State, d: nat)
    requires Inv(s) && d in s.delegates
    ensures Inv(ExpireDelegate(s, d))
    ensures var s' := ExpireDelegate(s, d);
            && s'.containers == s.containers && s'.draining == s.draining
            && d in s'.delegates && s'.delegates[d].mClient.None?
  {
    if s.delegates[d].mClient.Some? {
      var t := s.delegates[d].mClient.value;
      StopIs(s, t);
      ReleaseKeeps(s, t, d, s.calledBack + [s.delegates[d].start], s.stopped);
    }
  }

  /** The state once the top of the draining heap is popped. */
  ghost function Popped(s: State): State
    requires s.draining.Some? && s.draining.value.container in s.containers
    requires s.containers[s.draining.value.container].heap.Node?
  {
    var dr := s.draining.value;
    var c := s.containers[dr.container];
    var (heap, e) := Pop(EntryRanks, c.heap);
    s.(containers := s.containers[dr.container := c.(heap := heap)],
       draining := Some(dr.(drained := dr.drained + [e])))
  }

  lemma PopHolds(containers: map<bool, Container>, queue: seq<Msg>, delegates: map<nat, Delegate>, b: bool)
    requires (forall b :: b in containers) && containers[b].heap.Node?
    requires HoldsLiving(containers, queue, delegates) && NoneStranded(containers, queue, delegates)
    requires var d := containers[b].heap.data.id; d in delegates && delegates[d].mClient.None?
    ensures var containers' := containers[b := containers[b].(heap := Pop(EntryRanks, containers[b].heap).0)];
            HoldsLiving(containers', queue, delegates) && NoneStranded(containers', queue, delegates)
  {
    var heap := containers[b].heap;
    var containers' := containers[b := containers[b].(heap := Pop(EntryRanks, heap).0)];
    forall y ensures Occ(Pop(EntryRanks, heap).0, y) == Occ(heap, y) - if y == heap.data then 1 else 0 {
      PopTakesTop(EntryRanks, heap, y);
    }
    assert Occ(heap, heap.data) > 0;
    forall a ensures HoldsIn(a, containers'[a].heap, queue, delegates) {
      assert HoldsIn(a, containers[a].heap, queue, delegates);
    }
  }

  lemma PopDrainsAll(dr: Drain, heap: Tree<Entry>)
    requires heap.Node? && forall e :: Occ(dr.before, e) == Occ(heap, e) + multiset(dr.drained)[e]
    ensures forall e :: Occ(dr.before, e) == Occ(Pop(EntryRanks, heap).0, e) + multiset(dr.drained + [heap.data])[e]
  {
    forall e ensures Occ(dr.before, e) == Occ(Pop(EntryRanks, heap).0, e) + multiset(dr.drained + [heap.data])[e] {
      PopTakesTop(EntryRanks, heap, e);
    }
  }

  lemma PopDrainsSorted(drained: seq<Entry>, heap: Tree<Entry>)
    requires RankSorted(EntryRanks, drained) && heap.Node?
    requires forall e, i :: Occ(heap, e) > 0 && 0 <= i < |drained| ==> !Sooner(e, drained[i])
    ensures RankSorted(EntryRanks, drained + [heap.data])
  {
    var drained' := drained + [heap.data];
    assert Occ(heap, heap.data) > 0;
    forall i, j | 0 <= i < j < |drained'| ensures !OutRanks(EntryRanks, drained'[j], drained'[i]) {
      OutRanksIsSooner(drained'[j], drained'[i]);
    }
  }

  lemma PopLeavesLater(drained: seq<Entry>, heap: Tree<Entry>)
    requires heap.Node? && IsHeap(EntryRanks, heap)
    requires forall e, i :: Occ(heap, e) > 0 && 0 <= i < |drained| ==> !Sooner(e, drained[i])
    ensures forall e, i :: Occ(Pop(EntryRanks, heap).0, e) > 0 && 0 <= i < |drained| + 1 ==>
              !Sooner(e, (drained + [heap.data])[i])
  {
    forall e, i | Occ(Pop(EntryRanks, heap).0, e) > 0 && 0 <= i < |drained| + 1
      ensures !Sooner(e, (drained + [heap.data])[i])
    {
      PopTakesTop(EntryRanks, heap, e);
      if i == |drained| {
        EntriesAreRanked();
        TopIsHighest(EntryRanks, heap, e);
        OutRanksIsSooner(e, heap.data);
      }
    }
  }

  /** Popping after the first time takes only what is due. */
  lemma PopsDue(now: BootTime, drained: seq<Entry>, e: Entry)
    requires drained == [] || !OutRanks(EntryRanks, Entry(0, now), e)
    requires forall i :: 1 <= i < |drained| ==> drained[i].time.Nanos() <= now.Nanos()
    ensures forall i :: 1 <= i < |drained| + 1 ==> (drained + [e])[i].time.Nanos() <= now.Nanos()
  {
    OutRanksIsSooner(Entry(0, now), e);
  }

  lemma PopDrains(dr: Drain, heap: Tree<Entry>)
    requires DrainOk(dr, heap) && heap.Node? && IsHeap(EntryRanks, heap)
    requires dr.drained == [] || !OutRanks(EntryRanks, Entry(0, dr.now), heap.data)
    ensures DrainOk(dr.(drained := dr.drained + [heap.data]), Pop(EntryRanks, heap).0)
  {
    PopDrainsAll(dr, heap);
    PopDrainsSorted(dr.drained, heap);
    PopLeavesLater(dr.drained, heap);
    PopsDue(dr.now, dr.drained, heap.data);
  }

  lemma PopPlaces(s: State)
    requires Placement(s) && s.draining.Some?
    requires var c := s.containers[s.draining.value.container];
             && c.heap.Node? && c.heap.data.id in s.delegates && s.delegates[c.heap.data.id].mClient.None?
    ensures Placement(Popped(s))
  {
    var b := s.draining.value.container;
    EntriesAreRanked();
    PopKeepsHeap(EntryRanks, s.containers[b].heap);
    PopHolds(s.containers, s.queue, s.delegates, b);
  }

  lemma PopServes(s: State)
    requires (forall b :: b in s.containers) && Service(s) && s.draining.Some?
    requires var c := s.containers[s.draining.value.container];
             && IsHeap(EntryRanks, c.heap)
             && !DrainDone(c.heap, s.draining.value.now, s.draining.value.drained == [])
    ensures Service(Popped(s))
  {
    var b, s' := s.draining.value.container, Popped(s);
    assert DrainOk(s'.draining.value, s'.containers[b].heap) by {
      PopCounts(EntryRanks, s.containers[b].heap);
      PopDrains(s.draining.value, s.containers[b].heap);
    }
    forall a ensures Covered(a, s'.containers[a], s'.queue, s'.draining) {
      assert Covered(a, s.containers[a], s.queue, s.draining);
    }
  }

  lemma PopKeeps(s: State)
    requires Inv(s) && s.draining.Some?
    requires var c := s.containers[s.draining.value.container];
             && !DrainDone(c.heap, s.draining.value.now, s.draining.value.drained == [])
             && c.heap.data.id in s.delegates && s.delegates[c.heap.data.id].mClient.None?
    ensures Inv(Popped(s))
  {
    PopPlaces(s);
    PopServes(s);
  }

  lemma DrainPopIs(s: State)
    requires Inv(s) && s.draining.Some?
    requires var c := s.containers[s.draining.value.container];
             !DrainDone(c.heap, s.draining.value.now, s.draining.value.drained == [])
    ensures var d := s.containers[s.draining.value.container].heap.data.id;
            d in s.delegates && DrainStep(s) == Popped(ExpireDelegate(s, d))
  {
    var c := s.containers[s.draining.value.container];
    assert Occ(c.heap, c.heap.data) > 0;
    HeapAlive(c.heap, s.delegates);
    PopCounts(EntryRanks, c.heap);
    ExpireDelegateKeeps(s, c.heap.data.id);
  }

  lemma DrainKeeps(s: State)
    requires Inv(s) && s.draining.Some?
    ensures Inv(DrainStep(s))
  {
    var c := s.containers[s.draining.value.container];
    HeapAlive(c.heap, s.delegates);
    if DrainDone(c.heap, s.draining.value.now, s.draining.value.drained == []) {
      DrainEndKeeps(s);
    } else {
      DrainPopIs(s);
      ExpireDelegateKeeps(s, c.heap.data.id);
      PopKeeps(ExpireDelegate(s, c.heap.data.id));
    }
  }

  // ---------- The poll thread ----------

  ghost function Polled(s: State, b: bool, c: Container, queue: seq<Msg>): State {
    s.(containers := s.containers[b := c], queue := queue)
  }

  lemma PollServes(s: State, b: bool, c: Container, queue: seq<Msg>)
    requires (forall b :: b in s.containers) && Service(s) && c.heap == s.containers[b].heap
    requires (queue == s.queue && c.pc != Waiting) || queue == s.queue + [MsgExpire(b)]
    ensures Service(Polled(s, b, c, queue))
  {
    var s' := Polled(s, b, c, queue);
    assert forall m :: m in s.queue ==> m in queue;
    assert c.pc == Waiting ==> queue[|s.queue|] == MsgExpire(b);
    forall a ensures Covered(a, s'.containers[a], s'.queue, s'.draining) {
      assert Covered(a, s.containers[a], s.queue, s.draining);
    }
  }

  /** A poll step of container b leaves its heap alone and is either past Waiting or has queued an Expire. */
  lemma PollKeeps(s: State, b: bool, c: Container, queue: seq<Msg>)
    requires Inv(s) && c.heap == s.containers[b].heap
    requires (queue == s.queue && c.pc != Waiting) || queue == s.queue + [MsgExpire(b)]
    ensures Inv(Polled(s, b, c, queue))
  {
    SameHeapPlaces(s, Polled(s, b, c, queue), b, c);
    PollServes(s, b, c, queue);
  }

  // ---------- All steps, all runs ----------

  lemma PollNextKeeps(s: State, a: Action)
    requires Inv(s) && Enabled(s, a) && (a.Wake? || a.Disarm? || a.Unpoll? || a.SendExpire?)
    ensures Inv(Next(s, a))
  {
    match a
    case Wake(b) => PollKeeps(s, b, s.containers[b].(pc := Woken), s.queue);
    case Disarm(b) => PollKeeps(s, b, s.containers[b].(pc := Disarmed, armed := None), s.queue);
    case Unpoll(b) => PollKeeps(s, b, s.containers[b].(pc := Unpolled, polled := false), s.queue);
    case SendExpire(b) => PollKeeps(s, b, s.containers[b].(pc := Waiting), s.queue + [MsgExpire(b)]);
  }

  /** Every step of every thread keeps the invariant. */
  lemma NextKeeps(s: State, a: Action)
    requires Inv(s)
    ensures Inv(Next(s, a))
  {
    if Enabled(s, a) {
      match a
      case NewTimer(t, k) => NewTimerKeeps(s, t, k);
      case Start(t, d, now, ms, wake, available) => StartKeeps(s, t, d, now, ms, wake, available);
      case Stop(t) => StopKeeps(s, t);
      case DeleteTimer(t) => DeleteTimerKeeps(s, t);
      case Receive(now) => ReceiveKeeps(s, now);
      case DrainNext => DrainKeeps(s);
      case _ => PollNextKeeps(s, a);
    }
  }

  /** Whatever threads are scheduled when, and whatever clients do, the invariant holds. */
  lemma {:induction false} RunsKeep(actions: seq<Action>)
    ensures Inv(Run(actions))
  {
    if actions != [] {
      RunsKeep(actions[..|actions| - 1]);
      NextKeeps(Run(actions[..|actions| - 1]), actions[|actions| - 1]);
    }
  }
}
