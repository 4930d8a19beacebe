/**
 LocTimer as it is built: containers that change a heap and the kernel's timer in
 place, and the lock-protected bodies and messages that change timers, delegates,
 locks and the queue. Every method is proved to take the step of TimerProtocol.
 */
module LocTimer {
  import opened Options
  import opened HeapTree
  import opened LocHeap
  import opened TimerOrder
  import opened TimerProtocol
  import opened TimerInvariants

  /** A container after a pop, and what was popped; given a timer, nothing is popped that the timer outranks. */
  function ContainerPop(c: Container, timer: Option<Entry>): (Container, Option<Entry>) {
    if c.heap.Leaf? || (timer.Some? && OutRanks(EntryRanks, timer.value, c.heap.data)) then (c, None)
    else (c.(heap := HeapTree.Pop(EntryRanks, c.heap).0), Some(c.heap.data))
  }

  class LocTimerContainer {
    const heap: LocHeap<Entry>
    var armed: Option<Deadline>   // what timerfd_settime() last asked for
    var polled: bool              // whether the timerfd is in the epoll set
    ghost var pc: PollPc          // where the poll thread is with this container

    ghost predicate Valid()
      reads this, heap, heap.mTree, if heap.mTree == null then {} else heap.mTree.Repr
    {
      heap.Valid() && heap.ranks == EntryRanks
    }

    ghost function Repr(): set<object>
      reads this, heap, heap.mTree
    {
      {this, heap} + heap.Nodes()
    }

    ghost function Value(): Container
      reads this, heap, heap.mTree
    {
      Container(heap.Contents(), armed, polled, pc)
    }

    constructor ()
      ensures Valid() && fresh(Repr()) && Value() == NO_TIMERS
    {
      heap := new LocHeap(EntryRanks);
      armed, polled, pc := None, false, Waiting;
    }

    method UpdateSoonestTime(priorTop: Option<Entry>)
      requires Valid()
      modifies this`armed, this`polled
      ensures Value() == TimerProtocol.UpdateSoonestTime(old(Value()), priorTop)
    {
      var curTop := heap.Peek();
      if curTop != priorTop {
        if curTop == None {
          polled, armed := false, None;
        } else if priorTop == None || OutRanks(EntryRanks, curTop.value, priorTop.value) {
          polled, armed := true, Some(curTop.value.time);
        }
      }
    }

    /** What a Push message does to its container. */
    method Push(e: Entry)
      requires Valid()
      modifies Repr()
      ensures Valid() && fresh(Repr() - old(Repr()))
      ensures Value() == ContainerPush(old(Value()), e)
    {
      var priorTop := heap.Peek();
      heap.Push(e);
      UpdateSoonestTime(priorTop);
    }

    /** What a Remove message does to its container. */
    method Remove(e: Entry)
      requires Valid()
      modifies Repr()
      ensures Valid() && Repr() <= old(Repr())
      ensures Value() == ContainerRemove(old(Value()), e)
    {
      var priorTop := heap.Peek();
      var removed := heap.Remove(e);
      if priorTop == removed {
        UpdateSoonestTime(None);
      }
    }

    /** The two pops of the loop: whatever is on top, or, given a timer, the top unless the timer outranks it. */
    method PopFor(timer: Option<Entry>) returns (popped: Option<Entry>)
      requires Valid()
      modifies Repr()
      ensures Valid() && Repr() <= old(Repr())
      ensures Value() == ContainerPop(old(Value()), timer).0 && popped == ContainerPop(old(Value()), timer).1
    {
      if timer.None? {
        popped := heap.Pop();
      } else {
        popped := PopIfOutRanks(timer.value);
      }
    }

    method PopIfOutRanks(timer: Entry) returns (popped: Option<Entry>)
      requires Valid()
      modifies Repr()
      ensures Valid() && Repr() <= old(Repr())
      ensures Value() == ContainerPop(old(Value()), Some(timer)).0
      ensures popped == ContainerPop(old(Value()), Some(timer)).1
    {
      popped := None;
      var top := heap.Peek();
      if top != None && !OutRanks(EntryRanks, timer, top.value) {
        popped := heap.Pop();
      }
    }
  }

  lemma DrainStepPops(s: State)
    requires Inv(s) && s.draining.Some?
    requires var c := s.containers[s.draining.value.container];
             !DrainDone(c.heap, s.draining.value.now, s.draining.value.drained == [])
    ensures var b, s' := s.draining.value.container, DrainStep(s);
            && Inv(s') && s'.draining.Some? && s'.draining.value.container == b
            && s'.draining.value.now == s.draining.value.now
            && s'.draining.value.drained != []
            && Count(s'.containers[b].heap) < Count(s.containers[b].heap)
            && s' == ExpireDelegate(Popped(s), s.containers[b].heap.data.id)
  {
    var c := s.containers[s.draining.value.container];
    HeapAlive(c.heap, s.delegates);
    DrainKeeps(s);
    DrainPopIs(s);
    ExpireDelegateKeeps(s, c.heap.data.id);
    PopCounts(EntryRanks, c.heap);
  }

  /** The Expire message run to its end with no client step in between. */
  ghost function DrainToEnd(s: State): State
    requires Inv(s) && s.draining.Some?
    decreases Count(s.containers[s.draining.value.container].heap)
  {
    var c := s.containers[s.draining.value.container];
    if DrainDone(c.heap, s.draining.value.now, s.draining.value.drained == []) then DrainStep(s)
    else DrainStepPops(s); DrainToEnd(DrainStep(s))
  }

  lemma {:induction false} DrainToEndKeeps(s: State)
    requires Inv(s) && s.draining.Some?
    ensures Inv(DrainToEnd(s)) && DrainToEnd(s).draining.None?
    decreases Count(s.containers[s.draining.value.container].heap)
  {
    var c := s.containers[s.draining.value.container];
    HeapAlive(c.heap, s.delegates);
    if DrainDone(c.heap, s.draining.value.now, s.draining.value.drained == []) {
      DrainKeeps(s);
    } else {
      DrainStepPops(s);
      DrainToEndKeeps(DrainStep(s));
    }
  }

  /** What a message comes to once it is processed to its end. */
  ghost function Served(s: State, now: BootTime): (s': State)
    requires Inv(s) && s.draining.None? && s.queue != []
    ensures Inv(s') && s'.draining.None?
  {
    var step := ReceiveStep(s, now);
    ReceiveKeeps(s, now);
    if step.draining.Some? then DrainToEndKeeps(step); DrainToEnd(step) else step
  }

  lemma ProcDrains(s: State, m: Msg, now: BootTime)
    requires s.draining.None? && m.container in s.containers
    ensures TimerProtocol.Proc(s, m, now).draining.Some? <==> m.MsgExpire?
  {
  }

  lemma PoppedIs(s: State)
    requires s.draining.Some? && s.draining.value.container in s.containers
    requires s.containers[s.draining.value.container].heap.Node?
    ensures var dr := s.draining.value;
            var c := s.containers[dr.container];
            Popped(s) == s.(containers := s.containers[dr.container := c.(heap := HeapTree.Pop(EntryRanks, c.heap).0)],
                            draining := Some(dr.(drained := dr.drained + [c.heap.data])))
  {
    PopCounts(EntryRanks, s.containers[s.draining.value.container].heap);
  }

  class TimerService {
    var timers: map<nat, Timer>
    var delegates: map<nat, Delegate>
    var locks: map<nat, nat>
    var queue: seq<Msg>
    const sw: LocTimerContainer
    const hw: LocTimerContainer
    ghost var draining: Option<Drain>
    // history, as in TimerProtocol
    var started: nat
    ghost var calledBack: seq<nat>
    ghost var stopped: set<nat>
    ghost var freed: seq<nat>

    ghost predicate Valid()
      reads sw, sw.heap, sw.heap.mTree, if sw.heap.mTree == null then {} else sw.heap.mTree.Repr,
            hw, hw.heap, hw.heap.mTree, if hw.heap.mTree == null then {} else hw.heap.mTree.Repr
    {
      && sw.Valid() && hw.Valid()
      && sw.Repr() !! hw.Repr() && this !in sw.Repr() && this !in hw.Repr()
    }

    ghost function State(): State
      reads this, sw, sw.heap, sw.heap.mTree, hw, hw.heap, hw.heap.mTree
    {
      TimerProtocol.State(timers, delegates, locks, queue, map[false := sw.Value(), true := hw.Value()], draining,
                          false, started, calledBack, stopped, freed)
    }

    constructor ()
      ensures Valid() && State() == INIT
    {
      timers, delegates, locks, queue := map[], map[], map[], [];
      sw := new LocTimerContainer();
      hw := new LocTimerContainer();
      draining, started, calledBack, stopped, freed := None, 0, [], {}, [];
    }

    function Of(b: bool): LocTimerContainer {
      if b then hw else sw
    }

    /** A change of the one container in the map of both. */
    lemma OneOfBoth(x: Container, y: Container, b: bool, c: Container)
      ensures map[false := x, true := y][b := c] == map[false := if b then x else c, true := if b then c else y]
    {
    }

    // A method requires that its step follows no dangling pointer, which NoRunFaults proves of every run.

    method NewTimer(t: nat, k: nat)
      requires Valid() && t !in timers && k !in locks
      modifies this
      ensures Valid() && State() == NewTimerStep(old(State()), t, k)
    {
      timers := timers[t := Timer(None, k)];
      locks := locks[k := 1];
    }

    /** The delegate's constructor, which shares the lock and asks to be pushed; and mTimer. */
    method NewDelegate(t: nat, d: nat, futureTime: Deadline, wakeOnExpire: bool)
      requires t in timers && timers[t].mLock in locks
      modifies this`timers, this`delegates, this`locks, this`queue, this`started
      ensures var k := old(timers)[t].mLock;
              && delegates == old(delegates)[d := Delegate(Some(t), k, futureTime, Some(wakeOnExpire), wakeOnExpire,
                                                           old(started))]
              && locks == old(locks)[k := old(locks)[k] + 1]
              && queue == old(queue) + [MsgPush(wakeOnExpire, d)]
              && timers == old(timers)[t := Timer(Some(d), k)]
              && started == old(started) + 1
    {
      var k := timers[t].mLock;
      delegates := delegates[d := Delegate(Some(t), k, futureTime, Some(wakeOnExpire), wakeOnExpire, started)];
      locks := locks[k := locks[k] + 1];
      queue := queue + [MsgPush(wakeOnExpire, d)];
      timers := timers[t := Timer(Some(d), k)];
      started := started + 1;
    }

    method Start(t: nat, d: nat, now: BootTime, timeOutInMs: nat, wakeOnExpire: bool, available: bool)
      returns (success: bool)
      requires Valid() && t in timers && d !in delegates && timeOutInMs < 0x1_0000_0000
      requires timers[t].mLock in locks
      modifies this`timers, this`delegates, this`locks, this`queue, this`started
      ensures Valid() && State() == StartStep(old(State()), t, d, now, timeOutInMs, wakeOnExpire, available)
      ensures success <==> old(timers[t].mTimer).None? && available
    {
      success := false;
      if timers[t].mTimer.None? {
        FutureTimeInWindow(now, timeOutInMs);
        var futureTime := FutureTime(now, timeOutInMs);
        if available {
          NewDelegate(t, d, futureTime, wakeOnExpire);
          success := true;
        }
      }
    }

    /** LocTimer::stop, with LocTimerDelegate::destroyLocked. */
    method StopLocked(t: nat) returns (success: bool)
      requires Valid() && t in timers && !TimerProtocol.StopLocked(State(), t).fault
      modifies this`timers, this`delegates, this`queue
      ensures Valid() && State() == TimerProtocol.StopLocked(old(State()), t)
      ensures success <==> old(timers[t].mTimer).Some?
    {
      success := false;
      if timers[t].mTimer.Some? {
        var d := timers[t].mTimer.value;
        var e := delegates[d];
        timers := timers[t := timers[t].(mTimer := None)];
        delegates := delegates[d := e.(mClient := None, mContainer := None)];
        if e.mContainer.Some? {
          queue := queue + [MsgRemove(e.mContainer.value, d)];
        }
        success := true;
      }
    }

    method Stop(t: nat) returns (success: bool)
      requires Valid() && t in timers && !StopStep(State(), t).fault
      modifies this
      ensures Valid() && State() == StopStep(old(State()), t)
      ensures success <==> old(timers[t].mTimer).Some?
    {
      ghost var m := timers[t].mTimer;
      ghost var s := State();
      success := StopLocked(t);
      if m.Some? && m.value in s.delegates {
        stopped := stopped + {s.delegates[m.value].start};
      }
    }

    /** LocSharedLock::drop. */
    method DropLock(k: nat)
      requires Valid() && !TimerProtocol.DropLock(State(), k).fault
      modifies this`locks
      ensures Valid() && State() == TimerProtocol.DropLock(old(State()), k)
    {
      if locks[k] == 1 {
        locks := locks - {k};
      } else {
        locks := locks[k := locks[k] - 1];
      }
    }

    method LeaveLock(t: nat, k: nat)
      requires Valid() && !TimerProtocol.DropLock(State().(timers := timers - {t}), k).fault
      modifies this`timers, this`locks
      ensures Valid() && State() == TimerProtocol.DropLock(old(State()).(timers := old(timers) - {t}), k)
    {
      timers := timers - {t};
      DropLock(k);
    }

    /** The destructor of a LocTimer. */
    method DeleteTimer(t: nat)
      requires Valid() && t in timers && !StopStep(State(), t).fault && !DeleteTimerStep(State(), t).fault
      modifies this
      ensures Valid() && State() == DeleteTimerStep(old(State()), t)
    {
      var k := timers[t].mLock;
      var _ := Stop(t);
      LeaveLock(t, k);
    }

    method PushToContainer(b: bool, e: Entry)
      requires Valid()
      modifies Of(b).Repr()
      ensures Valid() && fresh(Of(b).Repr() - old(Of(b).Repr()))
      ensures State() == WithContainer(old(State()), b, ContainerPush(old(State()).containers[b], e))
    {
      Of(b).Push(e);
      assert Of(!b).Valid() && Of(!b).Value() == old(Of(!b).Value());
      OneOfBoth(old(sw.Value()), old(hw.Value()), b, Of(b).Value());
    }

    /** MsgTimerPush::proc. */
    method PushMessage(b: bool, d: nat)
      requires Valid() && !TimerProtocol.PushMessage(State(), b, d).fault
      modifies Of(b).Repr()
      ensures Valid() && State() == TimerProtocol.PushMessage(old(State()), b, d)
      ensures fresh(Of(b).Repr() - old(Of(b).Repr()))
    {
      PushToContainer(b, Entry(d, delegates[d].mFutureTime));
    }

    method FreeDelegate(d: nat)
      requires Valid() && !TimerProtocol.FreeDelegate(State(), d).fault
      modifies this`delegates, this`freed, this`locks
      ensures Valid() && State() == TimerProtocol.FreeDelegate(old(State()), d)
    {
      var e := delegates[d];
      delegates := delegates - {d};
      freed := freed + [e.start];
      DropLock(e.mLock);
    }

    method RemoveFromContainer(b: bool, e: Entry)
      requires Valid()
      modifies Of(b).Repr()
      ensures Valid() && Of(b).Repr() <= old(Of(b).Repr())
      ensures State() == WithContainer(old(State()), b, ContainerRemove(old(State()).containers[b], e))
    {
      Of(b).Remove(e);
      assert Of(!b).Valid() && Of(!b).Value() == old(Of(!b).Value());
      OneOfBoth(old(sw.Value()), old(hw.Value()), b, Of(b).Value());
    }

    /** MsgTimerRemove::proc, where delegates are deleted. */
    method RemoveMessage(b: bool, d: nat)
      requires Valid() && !TimerProtocol.RemoveMessage(State(), b, d).fault
      modifies this`delegates, this`freed, this`locks, Of(b).Repr()
      ensures Valid() && State() == TimerProtocol.RemoveMessage(old(State()), b, d)
      ensures Of(b).Repr() <= old(Of(b).Repr())
    {
      RemoveFromContainer(b, Entry(d, delegates[d].mFutureTime));
      FreeDelegate(d);
    }

    /** LocTimerDelegate::expire; called says whether the client's callback is due. */
    method ExpireDelegate(d: nat) returns (called: bool)
      requires Valid() && !TimerProtocol.ExpireDelegate(State(), d).fault
      modifies this
      ensures Valid() && State() == TimerProtocol.ExpireDelegate(old(State()), d)
      ensures draining == old(draining)
      ensures called <==> calledBack != old(calledBack)
    {
      called := false;
      var client := delegates[d].mClient;
      ghost var x := delegates[d].start;
      if client.Some? {
        called := StopLocked(client.value);
        if called {
          calledBack := calledBack + [x];
        }
      }
    }

    method PopFrom(b: bool, timer: Option<Entry>) returns (popped: Option<Entry>)
      requires Valid()
      modifies Of(b).Repr()
      ensures Valid() && Of(b).Repr() <= old(Of(b).Repr())
      ensures popped == ContainerPop(old(State()).containers[b], timer).1
      ensures State() == WithContainer(old(State()), b, ContainerPop(old(State()).containers[b], timer).0)
    {
      popped := Of(b).PopFor(timer);
      assert Of(!b).Valid() && Of(!b).Value() == old(Of(!b).Value());
      OneOfBoth(old(sw.Value()), old(hw.Value()), b, Of(b).Value());
    }

    /** What the loop of an Expire message holds in hand: the entry just popped, or nothing once it is over. */
    ghost predicate InHand(s: State, b: bool, now: BootTime, timer: Option<Entry>)
      requires s.draining.Some? && b in s.containers && b == s.draining.value.container
      reads this, sw, sw.heap, sw.heap.mTree, hw, hw.heap, hw.heap.mTree
    {
      if DrainDone(s.containers[b].heap, now, s.draining.value.drained == []) then timer == None && State() == s
      else timer == Some(s.containers[b].heap.data) && State() == Popped(s)
    }

    ghost method Record(e: Entry)
      requires Valid() && draining.Some?
      modifies this`draining
      ensures Valid()
      ensures var dr := old(draining.value);
              State() == old(State()).(draining := Some(dr.(drained := dr.drained + [e])))
    {
      draining := Some(draining.value.(drained := draining.value.drained + [e]));
    }

    /** The next pop: unconditional at first, then while the top is due. */
    method PopForExpire(b: bool, now: BootTime, first: bool) returns (timer: Option<Entry>)
      requires Valid() && draining.Some? && draining.value.container == b && first == (draining.value.drained == [])
      modifies this`draining, Of(b).Repr()
      ensures Valid() && Of(b).Repr() <= old(Of(b).Repr())
      ensures InHand(old(State()), b, now, timer)
    {
      ghost var s := State();
      timer := PopFrom(b, if first then None else Some(Entry(0, now)));
      if timer.Some? {
        PoppedIs(s);
        Record(timer.value);
      }
    }

    /** Tells the popped delegate that it expired, which leads to state s, and pops the next. */
    method ExpireRound(b: bool, now: BootTime, timer: Entry, ghost s: State) returns (next: Option<Entry>)
      requires Valid() && s == TimerProtocol.ExpireDelegate(State(), timer.id) && !s.fault
      requires s.draining.Some? && s.draining.value.container == b && s.draining.value.drained != []
      requires b in s.containers
      modifies this, Of(b).Repr()
      ensures Valid() && Of(b).Repr() <= old(Of(b).Repr())
      ensures InHand(s, b, now, next)
    {
      var _ := ExpireDelegate(timer.id);
      next := PopForExpire(b, now, false);
    }

    /** MsgTimerExpire::proc, once the message is off the queue. */
    method ExpireMessage(b: bool, now: BootTime)
      requires Valid() && Inv(State()) && State().draining == Some(Drain(b, now, State().containers[b].heap, []))
      modifies this, Of(b).Repr()
      ensures Valid() && State() == DrainToEnd(old(State()))
    {
      ghost var s := State();
      var timer := PopForExpire(b, now, true);
      while timer.Some?
        invariant Valid() && Of(b).Repr() <= old(Of(b).Repr())
        invariant Inv(s) && s.draining.Some? && s.draining.value.container == b && s.draining.value.now == now
        invariant DrainToEnd(s) == DrainToEnd(old(State()))
        invariant InHand(s, b, now, timer)
        decreases Count(s.containers[b].heap)
      {
        DrainStepPops(s);
        s := DrainStep(s);
        timer := ExpireRound(b, now, timer.value, s);
      }
      HeapAlive(s.containers[b].heap, s.delegates);
      FinishExpire(b);
    }

    method FinishExpire(b: bool)
      requires Valid() && draining.Some? && draining.value.container == b
      modifies this`draining, Of(b)`armed, Of(b)`polled
      ensures Valid() && State() == DrainEnded(old(State()))
    {
      Of(b).UpdateSoonestTime(None);
      assert Of(!b).Value() == old(Of(!b).Value());
      OneOfBoth(old(sw.Value()), old(hw.Value()), b, Of(b).Value());
      draining := None;
    }

    ghost method BeginExpire(b: bool, now: BootTime)
      requires Valid()
      modifies this`draining
      ensures Valid() && State() == old(State()).(draining := Some(Drain(b, now, old(State()).containers[b].heap, [])))
    {
      draining := Some(Drain(b, now, State().containers[b].heap, []));
    }

    method ProcExpire(b: bool, now: BootTime, ghost s: State)
      requires Valid() && s == State().(draining := Some(Drain(b, now, State().containers[b].heap, []))) && Inv(s)
      modifies this, Of(b).Repr()
      ensures Valid() && State() == DrainToEnd(s)
    {
      BeginExpire(b, now);
      ExpireMessage(b, now);
    }

    /** LocMsg::proc; s is the state the message's own step leads to. */
    method Proc(msg: Msg, now: BootTime, ghost s: State)
      requires Valid() && draining.None? && s == TimerProtocol.Proc(State(), msg, now) && !s.fault
      requires msg.MsgExpire? ==> Inv(s) && s.draining.Some?
      modifies this, sw.Repr(), hw.Repr()
      ensures Valid() && State() == if msg.MsgExpire? then DrainToEnd(s) else s
    {
      match msg
      case MsgPush(b, d) => PushMessage(b, d);
      case MsgRemove(b, d) => RemoveMessage(b, d);
      case MsgExpire(b) => ProcExpire(b, now, s);
    }

    method TakeMessage() returns (msg: Msg)
      requires Valid() && queue != []
      modifies this`queue
      ensures Valid() && msg == old(queue)[0] && State() == old(State()).(queue := old(queue)[1..])
    {
      msg := queue[0];
      queue := queue[1..];
    }

    /** MsgTask::run: takes the next message and processes it; s is the state its step leads to. */
    method Run(now: BootTime, ghost s: State)
      requires Valid() && draining.None? && queue != [] && s == ReceiveStep(State(), now) && !s.fault
      requires queue[0].MsgExpire? ==> Inv(s) && s.draining.Some?
      modifies this, sw.Repr(), hw.Repr()
      ensures Valid() && State() == if old(queue)[0].MsgExpire? then DrainToEnd(s) else s
    {
      var msg := TakeMessage();
      Proc(msg, now, s);
    }

    /** The same from any state a run can be in, which leads to another. */
    method Receive(now: BootTime)
      requires Valid() && Inv(State()) && draining.None? && queue != []
      modifies this, sw.Repr(), hw.Repr()
      ensures Valid() && State() == Served(old(State()), now)
      ensures Inv(State()) && draining.None?
    {
      ghost var s := State();
      ReceiveKeeps(s, now);
      ProcDrains(s.(queue := s.queue[1..]), s.queue[0], now);
      Run(now, ReceiveStep(s, now));
      assert State() == Served(s, now);
    }
  }
}
