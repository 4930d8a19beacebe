/**
 The timer service as a protocol between its threads. Client threads start, stop
 and delete timers; a poll thread turns the expiry of a kernel timer into a message;
 a message task takes messages first-in first-out and is the only one to touch the
 heaps. A step is a body run under a timer's lock, a message, one round of the loop
 of an Expire message, or one system call of the poll thread.

 Memory is explicit: timers, delegates and locks are maps from addresses to what
 lives there, "new" picks any address that is free, and "delete" removes the entry.
 A step that follows a pointer to nothing sets fault.
 */
module TimerProtocol {
  import opened Options
  import opened HeapTree
  import opened TimerOrder

  datatype Timer = Timer(mTimer: Option<nat>, mLock: nat)

  /**
   home and start are history: the container given to start() (mContainer before it is
   nulled), and how many starts had succeeded before this one.
   */
  datatype Delegate = Delegate(mClient: Option<nat>, mLock: nat, mFutureTime: Deadline,
                               mContainer: Option<bool>, home: bool, start: nat)

  /** Containers are named by wakeOnExpire: true for alarms, false for timers. */
  datatype Msg = MsgPush(container: bool, delegate: nat)
               | MsgRemove(container: bool, delegate: nat)
               | MsgExpire(container: bool)

  /** Where the poll thread is in LocTimerContainer::expire() for a container. */
  datatype PollPc = Waiting | Woken | Disarmed | Unpolled

  datatype Container = Container(heap: Tree<Entry>, armed: Option<Deadline>, polled: bool, pc: PollPc)

  /** An Expire message being processed; before, first and drained are what the loop has seen so far. */
  datatype Drain = Drain(container: bool, now: BootTime, before: Tree<Entry>, drained: seq<Entry>)

  datatype State = State(
    timers: map<nat, Timer>,
    delegates: map<nat, Delegate>,
    locks: map<nat, nat>,             // mRef of each living LocSharedLock
    queue: seq<Msg>,
    containers: map<bool, Container>,
    draining: Option<Drain>,
    fault: bool,
    // history
    started: nat,                     // successful starts
    calledBack: seq<nat>,             // starts whose timeOutCallback ran, in order
    stopped: set<nat>,                // starts a client's stop() or destructor ended
    freed: seq<nat>                   // starts whose delegate was deleted, in order
  )

  const NO_TIMERS := Container(Leaf, None, false, Waiting)

  const INIT := State(map[], map[], map[], [], map[false := NO_TIMERS, true := NO_TIMERS], None,
                      false, 0, [], {}, [])

  datatype Action =
    | NewTimer(timer: nat, lock: nat)
    | Start(timer: nat, delegate: nat, now: BootTime, timeOutInMs: nat, wakeOnExpire: bool, available: bool)
    | Stop(timer: nat)
    | DeleteTimer(timer: nat)
    | Wake(container: bool)
    | Disarm(container: bool)
    | Unpoll(container: bool)
    | SendExpire(container: bool)
    | Receive(now: BootTime)
    | DrainNext

  // ---------- Clients ----------

  function NewTimerStep(s: State, t: nat, k: nat): State
    requires t !in s.timers && k !in s.locks
  {
    s.(timers := s.timers[t := Timer(None, k)], locks := s.locks[k := 1])
  }

  /** available says whether LocTimerContainer::get() could create its timerfd. */
  function StartStep(s: State, t: nat, d: nat, now: BootTime, ms: nat, wake: bool, available: bool): State
    requires t in s.timers && d !in s.delegates && ms < 0x1_0000_0000
  {
    var k := s.timers[t].mLock;
    if k !in s.locks then s.(fault := true)
    else if s.timers[t].mTimer.Some? || !available then s
    else
      FutureTimeInWindow(now, ms);
      s.(timers := s.timers[t := Timer(Some(d), k)],
         delegates := s.delegates[d := Delegate(Some(t), k, FutureTime(now, ms), Some(wake), wake, s.started)],
         locks := s.locks[k := s.locks[k] + 1],
         queue := s.queue + [MsgPush(wake, d)],
         started := s.started + 1)
  }

  /** LocTimerDelegate::destroyLocked. */
  function DestroyLocked(s: State, d: nat): State {
    if d !in s.delegates then s.(fault := true) else
    var e := s.delegates[d];
    if e.mContainer.None? then
      s.(delegates := s.delegates[d := e.(mClient := None)])
    else
      s.(delegates := s.delegates[d := e.(mClient := None, mContainer := None)],
         queue := s.queue + [MsgRemove(e.mContainer.value, d)])
  }

  /** LocTimer::stop, which the timer's client and the expire loop both call. */
  function StopLocked(s: State, t: nat): State
    requires t in s.timers
  {
    if s.timers[t].mLock !in s.locks then s.(fault := true)
    else if s.timers[t].mTimer.None? then s
    else DestroyLocked(s.(timers := s.timers[t := s.timers[t].(mTimer := None)]), s.timers[t].mTimer.value)
  }

  function StopStep(s: State, t: nat): State
    requires t in s.timers
  {
    var m := s.timers[t].mTimer;
    if m.Some? && m.value in s.delegates then
      StopLocked(s, t).(stopped := s.stopped + {s.delegates[m.value].start})
    else StopLocked(s, t)
  }

  /** LocSharedLock::drop. */
  function DropLock(s: State, k: nat): State {
    if k !in s.locks || s.locks[k] == 0 then s.(fault := true)
    else if s.locks[k] == 1 then s.(locks := s.locks - {k})
    else s.(locks := s.locks[k := s.locks[k] - 1])
  }

  function DeleteTimerStep(s: State, t: nat): State
    requires t in s.timers
  {
    var s1 := StopStep(s, t);
    DropLock(s1.(timers := s1.timers - {t}), s.timers[t].mLock)
  }

  // ---------- The message task ----------

  function Top(t: Tree<Entry>): Option<Entry> {
    if t.Leaf? then None else Some(t.data)
  }

  /** Every pointer in the heap leads to a delegate, which is what ranks() reads. */
  predicate Alive(t: Tree<Entry>, delegates: map<nat, Delegate>) {
    t.Node? ==>
      && t.data.id in delegates && delegates[t.data.id].mFutureTime == t.data.time
      && Alive(t.left, delegates) && Alive(t.right, delegates)
  }

  /** Tells the kernel about a new soonest deadline. */
  function UpdateSoonestTime(c: Container, priorTop: Option<Entry>): Container {
    var curTop := Top(c.heap);
    if curTop == priorTop then c
    else if curTop.None? then c.(polled := false, armed := None)
    else if priorTop.None? || OutRanks(EntryRanks, curTop.value, priorTop.value) then
      c.(polled := true, armed := Some(curTop.value.time))
    else c
  }

  function ContainerPush(c: Container, e: Entry): Container {
    UpdateSoonestTime(c.(heap := Push(EntryRanks, c.heap, e)), Top(c.heap))
  }

  function ContainerRemove(c: Container, e: Entry): Container {
    var (heap, found) := Remove(EntryRanks, c.heap, e);
    var removed := if found then Some(e) else None;
    if Top(c.heap) == removed then UpdateSoonestTime(c.(heap := heap), None)
    else c.(heap := heap)
  }

  function WithContainer(s: State, b: bool, c: Container): State {
    s.(containers := s.containers[b := c])
  }

  function PushMessage(s: State, b: bool, d: nat): State
    requires b in s.containers
  {
    var c := s.containers[b];
    if d !in s.delegates || !Alive(c.heap, s.delegates) then s.(fault := true)
    else WithContainer(s, b, ContainerPush(c, Entry(d, s.delegates[d].mFutureTime)))
  }

  function RemoveMessage(s: State, b: bool, d: nat): State
    requires b in s.containers
  {
    var c := s.containers[b];
    if d !in s.delegates || !Alive(c.heap, s.delegates) then s.(fault := true)
    else
      FreeDelegate(WithContainer(s, b, ContainerRemove(c, Entry(d, s.delegates[d].mFutureTime))), d)
  }

  /** The delete of a delegate, whose destructor drops the shared lock. */
  function FreeDelegate(s: State, d: nat): State {
    if d !in s.delegates then s.(fault := true) else
    var e := s.delegates[d];
    DropLock(s.(delegates := s.delegates - {d}, freed := s.freed + [e.start]), e.mLock)
  }

  /** LocMsg::proc of each message; an Expire message then takes a step for each round of its loop. */
  function Proc(s: State, m: Msg, now: BootTime): State
    requires m.container in s.containers
  {
    match m
    case MsgPush(b, d) => PushMessage(s, b, d)
    case MsgRemove(b, d) => RemoveMessage(s, b, d)
    case MsgExpire(b) => s.(draining := Some(Drain(b, now, s.containers[b].heap, [])))
  }

  function ReceiveStep(s: State, now: BootTime): State
    requires s.draining.None? && s.queue != [] && s.queue[0].container in s.containers
  {
    Proc(s.(queue := s.queue[1..]), s.queue[0], now)
  }

  /** LocTimerDelegate::expire: stop the timer that still owns the delegate, and call it back. */
  function ExpireDelegate(s: State, d: nat): State {
    if d !in s.delegates then s.(fault := true) else
    var client := s.delegates[d].mClient;
    if client.None? then s
    else if client.value !in s.timers then s.(fault := true)
    else if s.timers[client.value].mTimer.None? then StopLocked(s, client.value)
    else StopLocked(s, client.value).(calledBack := s.calledBack + [s.delegates[d].start])
  }

  /** Whether the loop is over: the heap is empty or, after the first pop, its top is later than now. */
  predicate DrainDone(heap: Tree<Entry>, now: BootTime, first: bool) {
    heap.Leaf? || (!first && OutRanks(EntryRanks, Entry(0, now), heap.data))
  }

  function DrainStep(s: State): State
    requires s.draining.Some? && s.draining.value.container in s.containers
  {
    var dr := s.draining.value;
    var c := s.containers[dr.container];
    if !Alive(c.heap, s.delegates) then s.(fault := true)
    else if DrainDone(c.heap, dr.now, dr.drained == []) then
      WithContainer(s, dr.container, UpdateSoonestTime(c, None)).(draining := None)
    else
      var (heap, e) := Pop(EntryRanks, c.heap);
      var s1 := s.(containers := s.containers[dr.container := c.(heap := heap)],
                   draining := Some(dr.(drained := dr.drained + [e])));
      ExpireDelegate(s1, e.id)
  }

  // ---------- Runs ----------

  /** Whether an action can happen; clients use only timers they have not deleted. */
  predicate Enabled(s: State, a: Action) {
    match a
    case NewTimer(t, k) => t !in s.timers && k !in s.locks
    case Start(t, d, _, ms, _, _) => t in s.timers && d !in s.delegates && ms < 0x1_0000_0000
    case Stop(t) => t in s.timers
    case DeleteTimer(t) => t in s.timers
    case Wake(b) => b in s.containers && s.containers[b].pc == Waiting && s.containers[b].polled &&
      s.containers[b].armed.Some?
    case Disarm(b) => b in s.containers && s.containers[b].pc == Woken
    case Unpoll(b) => b in s.containers && s.containers[b].pc == Disarmed
    case SendExpire(b) => b in s.containers && s.containers[b].pc == Unpolled
    case Receive(_) => s.draining.None? && s.queue != [] && s.queue[0].container in s.containers
    case DrainNext => s.draining.Some? && s.draining.value.container in s.containers
  }

  function Next(s: State, a: Action): State {
    if !Enabled(s, a) then s else
    match a
    case NewTimer(t, k) => NewTimerStep(s, t, k)
    case Start(t, d, now, ms, wake, available) => StartStep(s, t, d, now, ms, wake, available)
    case Stop(t) => StopStep(s, t)
    case DeleteTimer(t) => DeleteTimerStep(s, t)
    case Wake(b) => WithContainer(s, b, s.containers[b].(pc := Woken))
    case Disarm(b) => WithContainer(s, b, s.containers[b].(pc := Disarmed, armed := None))
    case Unpoll(b) => WithContainer(s, b, s.containers[b].(pc := Unpolled, polled := false))
    case SendExpire(b) =>
      WithContainer(s, b, s.containers[b].(pc := Waiting)).(queue := s.queue + [MsgExpire(b)])
    case Receive(now) => ReceiveStep(s, now)
    case DrainNext => DrainStep(s)
  }

  /** The state after a schedule; an action that cannot happen when it is scheduled does nothing. */
  function Run(actions: seq<Action>): State {
    if actions == [] then INIT else Next(Run(actions[..|actions| - 1]), actions[|actions| - 1])
  }
}
