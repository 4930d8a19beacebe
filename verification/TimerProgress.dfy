/** What becomes of a running timer, why a callback can be early, and who disarms the kernel. */
module TimerProgress {
  import opened Options
  import opened HeapTree
  import opened TimerOrder
  import opened TimerProtocol
  import opened TimerInvariants
  import opened TimerTheorems

  // ---------- Every running start can be served ----------

  /** A step of the poll thread, the kernel or the message task, whose clock reads now. */
  predicate IsService(a: Action, now: BootTime) {
    a == Receive(now) || a.DrainNext? || a.Wake? || a.Disarm? || a.Unpoll? || a.SendExpire?
  }

  predicate ServiceOnly(steps: seq<Action>, now: BootTime) {
    forall a :: a in steps ==> IsService(a, now)
  }

  /** Service steps alone can lead from s to the callback of start x. */
  ghost predicate CanServe(s: State, x: nat, now: BootTime) {
    exists steps :: ServiceOnly(steps, now) && x in RunFrom(s, steps).calledBack
  }

  function RunFrom(s: State, steps: seq<Action>): State {
    if steps == [] then s else Next(RunFrom(s, steps[..|steps| - 1]), steps[|steps| - 1])
  }

  lemma {:induction false} RunFromPlus(s: State, steps: seq<Action>, more: seq<Action>)
    ensures RunFrom(s, steps + more) == RunFrom(RunFrom(s, steps), more)
  {
    var all := steps + more;
    if more == [] {
      assert all == steps;
    } else {
      assert all[..|all| - 1] == steps + more[..|more| - 1];
      RunFromPlus(s, steps, more[..|more| - 1]);
    }
  }

  lemma {:induction false} RunFromRun(actions: seq<Action>, steps: seq<Action>)
    ensures RunFrom(Run(actions), steps) == Run(actions + steps)
  {
    if steps == [] {
      assert actions + steps == actions;
    } else {
      var all := actions + steps;
      assert all[..|all| - 1] == actions + steps[..|steps| - 1];
      RunFromRun(actions, steps[..|steps| - 1]);
    }
  }

  lemma StepsServe(s: State, steps: seq<Action>, x: nat, now: BootTime)
    requires ServiceOnly(steps, now) && CanServe(RunFrom(s, steps), x, now)
    ensures CanServe(s, x, now)
  {
    var more :| ServiceOnly(more, now) && x in RunFrom(RunFrom(s, steps), more).calledBack;
    RunFromPlus(s, steps, more);
    assert ServiceOnly(steps + more, now);
  }

  /** Service steps start and stop nothing on a client's behalf. */
  lemma ServiceSparesRecord(s: State, a: Action, now: BootTime)
    requires IsService(a, now)
    ensures Next(s, a).stopped == s.stopped && Next(s, a).started == s.started
  {
    if Enabled(s, a) {
      match a
      case Receive(_) => ReceiveSparesRecord(s, now);
      case DrainNext => DrainSparesRecord(s);
      case _ =>
    }
  }

  lemma ReceiveSparesRecord(s: State, now: BootTime)
    requires Enabled(s, Receive(now))
    ensures ReceiveStep(s, now).stopped == s.stopped && ReceiveStep(s, now).started == s.started
  {
    var s1 := s.(queue := s.queue[1..]);
    match s.queue[0]
    case MsgPush(b, d) =>
    case MsgRemove(b, d) => assert RemoveMessage(s1, b, d).stopped == s.stopped;
    case MsgExpire(b) =>
  }

  lemma DrainSparesRecord(s: State)
    requires Enabled(s, DrainNext)
    ensures DrainStep(s).stopped == s.stopped && DrainStep(s).started == s.started
  {
  }

  /** A start that was not stopped and not called back has its delegate in its heap once no message is left. */
  lemma UnservedIsInHeap(s: State, x: nat) returns (b: bool)
    requires Inv(s) && s.queue == [] && x < s.started && x !in s.stopped && x !in s.calledBack
    ensures s.containers[b].heap.Node?
  {
    assert x !in s.freed;
    var d :| d in s.delegates && s.delegates[d].start == x;
    b := s.delegates[d].home;
    assert Occ(s.containers[b].heap, EntryOf(s.delegates, d)) > 0;
  }

  function Stage(c: Container): nat {
    match c.pc
    case Waiting => 3
    case Woken => 2
    case Disarmed => 1
    case Unpolled => 0
  }

  function Stages(s: State): nat
    requires forall b :: b in s.containers
  {
    Stage(s.containers[false]) + Stage(s.containers[true])
  }

  /** What the poll thread does next with a container; first of all, the kernel wakes it. */
  function PollAction(b: bool, c: Container): Action {
    match c.pc
    case Waiting => Wake(b)
    case Woken => Disarm(b)
    case Disarmed => Unpoll(b)
    case Unpolled => SendExpire(b)
  }

  lemma PollEnabled(s: State, b: bool)
    requires (forall b :: b in s.containers) && KernelOk(s.containers, s.queue, s.draining)
    requires s.draining.None? && s.queue == [] && s.containers[b].heap.Node?
    ensures Enabled(s, PollAction(b, s.containers[b]))
  {
    assert Covered(b, s.containers[b], s.queue, s.draining);
  }

  lemma PollMovesOn(s: State, b: bool)
    requires (forall b :: b in s.containers) && Enabled(s, PollAction(b, s.containers[b])) &&
      s.containers[b].pc != Unpolled
    ensures var s' := Next(s, PollAction(b, s.containers[b]));
            (forall b :: b in s'.containers) && Work(s') == Work(s) && Stages(s') < Stages(s)
  {
  }

  lemma ExpireIsQueued(s: State, b: bool)
    requires (forall b :: b in s.containers) && s.containers[b].pc == Unpolled && s.queue == []
    ensures var s' := Next(s, SendExpire(b));
            && (forall b :: b in s'.containers) && Work(s') == Work(s) + 2
            && s'.queue == [MsgExpire(b)] && s'.draining == s.draining && s'.containers[b].heap == s.containers[b].heap
  {
    QueueWeightSnoc(s.queue, MsgExpire(b));
    assert s.queue + [MsgExpire(b)] == [MsgExpire(b)];
  }

  lemma FirstRoundIsDue(s: State, b: bool, now: BootTime)
    requires s.draining.None? && s.queue == [MsgExpire(b)] && b in s.containers && s.containers[b].heap.Node?
    ensures var s' := ReceiveStep(s, now);
            && s'.draining == Some(Drain(b, now, s.containers[b].heap, [])) && s'.containers == s.containers
            && !DrainDone(s'.containers[b].heap, now, true)
  {
  }

  /** A state of the invariant with less to do. */
  ghost predicate Shrunk(s': State, work: nat, stages: nat) {
    Inv(s') && (Work(s') < work || (Work(s') == work && Stages(s') < stages))
  }

  lemma RunsReceive(s: State, now: BootTime)
    requires Enabled(s, Receive(now))
    ensures RunFrom(s, [Receive(now)]) == ReceiveStep(s, now)
  {
    RunFromOne(s, Receive(now));
  }

  lemma RunsDrain(s: State)
    requires Enabled(s, DrainNext)
    ensures RunFrom(s, [DrainNext]) == DrainStep(s)
  {
    RunFromOne(s, DrainNext);
  }

  lemma ReceiveMovesOn(s: State, now: BootTime)
    requires Inv(s) && s.draining.None? && s.queue != []
    ensures Shrunk(RunFrom(s, [Receive(now)]), Work(s), Stages(s))
  {
    RunsReceive(s, now);
    ReceiveKeeps(s, now);
    ReceiveShrinks(s, now);
  }

  lemma DrainMovesOn(s: State)
    requires Inv(s) && s.draining.Some?
    ensures Shrunk(RunFrom(s, [DrainNext]), Work(s), Stages(s))
  {
    RunsDrain(s);
    DrainKeeps(s);
    DrainShrinks(s);
  }

  lemma FirstRoundShrinks(s: State, b: bool, now: BootTime)
    requires Inv(s) && s.draining.None? && s.queue == [MsgExpire(b)] && s.containers[b].heap.Node?
    ensures var s' := DrainStep(ReceiveStep(s, now));
            Inv(s') && Work(s') + 2 < Work(s)
  {
    ReceiveKeeps(s, now);
    ReceiveShrinks(s, now);
    FirstRoundIsDue(s, b, now);
    DrainKeeps(ReceiveStep(s, now));
    DrainShrinks(ReceiveStep(s, now));
  }

  lemma FirstRoundRuns(s: State, b: bool, now: BootTime)
    requires s.draining.None? && s.queue == [MsgExpire(b)] && b in s.containers && s.containers[b].heap.Node?
    ensures RunFrom(s, [Receive(now)] + [DrainNext]) == DrainStep(ReceiveStep(s, now))
  {
    FirstRoundIsDue(s, b, now);
    RunFromPlus(s, [Receive(now)], [DrainNext]);
    RunsReceive(s, now);
    RunsDrain(ReceiveStep(s, now));
  }

  /** Some service steps are possible, after which there is less to do. */
  lemma ServiceShrinks(s: State, x: nat, now: BootTime) returns (steps: seq<Action>)
    requires Inv(s) && x < s.started && x !in s.stopped && x !in s.calledBack
    ensures ServiceOnly(steps, now)
    ensures Shrunk(RunFrom(s, steps), Work(s), Stages(s))
  {
    if s.draining.Some? {
      steps := [DrainNext];
      DrainMovesOn(s);
    } else if s.queue != [] {
      steps := [Receive(now)];
      ReceiveMovesOn(s, now);
    } else {
      var b := UnservedIsInHeap(s, x);
      steps := RestShrinks(s, b, now);
    }
  }

  lemma RestShrinks(s: State, b: bool, now: BootTime) returns (steps: seq<Action>)
    requires Inv(s) && s.draining.None? && s.queue == [] && s.containers[b].heap.Node?
    ensures ServiceOnly(steps, now)
    ensures Shrunk(RunFrom(s, steps), Work(s), Stages(s))
  {
    if s.containers[b].pc == Unpolled {
      steps := [SendExpire(b)] + ([Receive(now)] + [DrainNext]);
      UnpolledShrinks(s, b, now);
    } else {
      steps := [PollAction(b, s.containers[b])];
      PollShrinks(s, b);
    }
  }

  lemma PollShrinks(s: State, b: bool)
    requires Inv(s) && s.draining.None? && s.queue == [] && s.containers[b].heap.Node? && s.containers[b].pc != Unpolled
    ensures Shrunk(RunFrom(s, [PollAction(b, s.containers[b])]), Work(s), Stages(s))
  {
    var a := PollAction(b, s.containers[b]);
    PollEnabled(s, b);
    RunFromOne(s, a);
    PollMovesOn(s, b);
    PollNextKeeps(s, a);
  }

  lemma UnpolledShrinks(s: State, b: bool, now: BootTime)
    requires Inv(s) && s.draining.None? && s.queue == [] && s.containers[b].heap.Node? && s.containers[b].pc == Unpolled
    ensures Shrunk(RunFrom(s, [SendExpire(b)] + ([Receive(now)] + [DrainNext])), Work(s), Stages(s))
  {
    var s' := Next(s, SendExpire(b));
    PollNextKeeps(s, SendExpire(b));
    ExpireIsQueued(s, b);
    FirstRoundShrinks(s', b, now);
    FirstRoundRuns(s', b, now);
    RunFromOne(s, SendExpire(b));
    RunFromPlus(s, [SendExpire(b)], [Receive(now)] + [DrainNext]);
  }

  lemma RunFromOne(s: State, a: Action)
    ensures RunFrom(s, [a]) == Next(s, a)
  {
    assert [a][..0] == [];
  }

  lemma {:induction false} ServiceSparesRecords(s: State, steps: seq<Action>, now: BootTime)
    requires ServiceOnly(steps, now)
    ensures RunFrom(s, steps).stopped == s.stopped && RunFrom(s, steps).started == s.started
  {
    if steps != [] {
      ServiceSparesRecords(s, steps[..|steps| - 1], now);
      ServiceSparesRecord(RunFrom(s, steps[..|steps| - 1]), steps[|steps| - 1], now);
    }
  }

  lemma {:induction false} ServiceReaches(s: State, x: nat, now: BootTime)
    requires Inv(s) && x < s.started && x !in s.stopped
    ensures CanServe(s, x, now)
    decreases Work(s), Stages(s)
  {
    if x in s.calledBack {
      assert RunFrom(s, []) == s;
    } else {
      var steps := ServiceShrinks(s, x, now);
      ServiceSparesRecords(s, steps, now);
      ServiceReaches(RunFrom(s, steps), x, now);
      StepsServe(s, steps, x, now);
    }
  }

  /**
   From wherever a run has led, the poll thread, the kernel and the message task can by
   themselves bring about the callback of any timer that is running, whatever the clock
   says; so no schedule of clients and threads makes a callback impossible.
   */
  lemma CallbackIsReachable(actions: seq<Action>, t: nat, now: BootTime)
    requires t in Run(actions).timers && Run(actions).timers[t].mTimer.Some?
    ensures var s := Run(actions);
            var d := s.timers[t].mTimer.value;
            d in s.delegates
            && exists steps :: ServiceOnly(steps, now) && s.delegates[d].start in Run(actions + steps).calledBack
  {
    RunsKeep(actions);
    var s := Run(actions);
    var x := s.delegates[s.timers[t].mTimer.value].start;
    ServiceReaches(s, x, now);
    var steps :| ServiceOnly(steps, now) && x in RunFrom(s, steps).calledBack;
    RunFromRun(actions, steps);
  }

  // ---------- Who disarms the kernel ----------

  /** The branch of updateSoonestTime for a heap that has become empty. */
  predicate Disarms(c: Container, priorTop: Option<Entry>) {
    Top(c.heap) != priorTop && Top(c.heap).None?
  }

  /** None of the three calls takes it: after a push the heap is not empty, and the others pass no prior top. */
  lemma NoCallDisarms(c: Container, e: Entry)
    ensures !Disarms(c.(heap := Push(EntryRanks, c.heap, e)), Top(c.heap))
    ensures !Disarms(c, None)
  {
    PushCounts(EntryRanks, c.heap, e);
  }

  /**
   So in every run it is the poll thread alone that disarms a kernel timer and takes it
   out of the poll, when it has expired; an empty heap does not.
   */
  lemma OnlyPollDisarms(actions: seq<Action>, a: Action, b: bool)
    ensures var s, s' := Run(actions), Run(actions + [a]);
            && b in s.containers && b in s'.containers
            && (s.containers[b].armed.Some? && s'.containers[b].armed.None? ==> a == Disarm(b))
            && (s.containers[b].polled && !s'.containers[b].polled ==> a == Unpoll(b))
  {
    RunsKeep(actions);
    RunSnoc(actions, a);
    StepDisarms(Run(actions), a, b);
  }

  lemma StepDisarms(s: State, a: Action, b: bool)
    requires forall b :: b in s.containers
    ensures var s' := Next(s, a);
            && b in s'.containers
            && (s.containers[b].armed.Some? && s'.containers[b].armed.None? ==> a == Disarm(b))
            && (s.containers[b].polled && !s'.containers[b].polled ==> a == Unpoll(b))
  {
    if Enabled(s, a) {
      match a
      case Receive(now) => ReceiveSparesPoll(s, now, b);
      case DrainNext => DrainSparesPoll(s, b);
      case _ => if IsClients(a) { ClientSparesPoll(s, a); }
    }
  }

  /** The kernel timer stays armed and polled if it was, and the poll thread where it is. */
  ghost predicate StaysArmed(c: Container, c': Container) {
    (c.armed.Some? ==> c'.armed.Some?) && (c.polled ==> c'.polled) && c'.pc == c.pc
  }

  lemma UpdateStaysArmed(c: Container, priorTop: Option<Entry>)
    requires !Disarms(c, priorTop)
    ensures StaysArmed(c, TimerProtocol.UpdateSoonestTime(c, priorTop))
  {
  }

  /** Nothing new is put into the queue but Push and Remove messages. */
  ghost predicate NoNewExpire(queue: seq<Msg>, queue': seq<Msg>) {
    forall b :: MsgExpire(b) in queue' ==> MsgExpire(b) in queue
  }

  ghost predicate SparesPoll(s: State, s': State, b: bool) {
    && b in s.containers && b in s'.containers && StaysArmed(s.containers[b], s'.containers[b])
    && NoNewExpire(s.queue, s'.queue)
  }

  predicate IsClients(a: Action) { a.NewTimer? || a.Start? || a.Stop? || a.DeleteTimer? }

  lemma ClientSparesPoll(s: State, a: Action)
    requires IsClients(a)
    ensures Next(s, a).containers == s.containers && Next(s, a).draining == s.draining
    ensures NoNewExpire(s.queue, Next(s, a).queue)
  {
    if Enabled(s, a) {
      match a
      case NewTimer(_, _) =>
      case Start(_, _, _, _, _, _) =>
      case Stop(t) => StopSparesPoll(s, t);
      case DeleteTimer(t) => StopSparesPoll(s, t);
      case _ =>
    }
  }

  lemma StopSparesPoll(s: State, t: nat)
    requires t in s.timers
    ensures StopStep(s, t).containers == s.containers && StopStep(s, t).draining == s.draining
    ensures NoNewExpire(s.queue, StopStep(s, t).queue)
  {
  }

  lemma PollSparesDrain(s: State, a: Action)
    requires a.Wake? || a.Disarm? || a.Unpoll? || a.SendExpire?
    ensures Next(s, a).draining == s.draining
  {
  }

  lemma PollReports(s: State, a: Action, b: bool)
    requires a.Wake? || a.Disarm? || a.Unpoll? || a.SendExpire?
    requires b in s.containers && s.containers[b].pc == Waiting && MsgExpire(b) !in s.queue
    requires b in Next(s, a).containers && (Next(s, a).containers[b].pc != Waiting || MsgExpire(b) in Next(s, a).queue)
    ensures a == Wake(b) && Enabled(s, a)
  {
  }

  lemma ReceiveSparesPoll(s: State, now: BootTime, b: bool)
    requires (forall b :: b in s.containers) && Enabled(s, Receive(now))
    ensures SparesPoll(s, ReceiveStep(s, now), b)
  {
    assert forall m :: m in s.queue[1..] ==> m in s.queue;
    var s1 := s.(queue := s.queue[1..]);
    match s.queue[0]
    case MsgPush(a, d) => PushSparesPoll(s1, a, d, b);
    case MsgRemove(a, d) => RemoveSparesPoll(s1, a, d, b);
    case MsgExpire(_) =>
  }

  lemma PushSparesPoll(s: State, a: bool, d: nat, b: bool)
    requires forall b :: b in s.containers
    ensures SparesPoll(s, PushMessage(s, a, d), b)
  {
    if d in s.delegates {
      var c, e := s.containers[a], EntryOf(s.delegates, d);
      NoCallDisarms(c, e);
      UpdateStaysArmed(c.(heap := Push(EntryRanks, c.heap, e)), Top(c.heap));
    }
  }

  lemma RemoveSparesPoll(s: State, a: bool, d: nat, b: bool)
    requires forall b :: b in s.containers
    ensures SparesPoll(s, RemoveMessage(s, a, d), b)
  {
    if d in s.delegates {
      var c, e := s.containers[a], EntryOf(s.delegates, d);
      UpdateStaysArmed(c.(heap := Remove(EntryRanks, c.heap, e).0), None);
      var s1 := WithContainer(s, a, ContainerRemove(c, e));
      assert FreeDelegate(s1, d).containers == s1.containers && FreeDelegate(s1, d).queue == s.queue;
    }
  }

  lemma ExpireSparesPoll(s: State, d: nat)
    ensures var s' := ExpireDelegate(s, d);
            s'.containers == s.containers && s'.draining == s.draining && NoNewExpire(s.queue, s'.queue)
  {
  }

  lemma DrainSparesPoll(s: State, b: bool)
    requires (forall b :: b in s.containers) && Enabled(s, DrainNext)
    ensures SparesPoll(s, DrainStep(s), b)
  {
    var dr := s.draining.value;
    var c := s.containers[dr.container];
    UpdateStaysArmed(c, None);
    if Alive(c.heap, s.delegates) && !DrainDone(c.heap, dr.now, dr.drained == []) {
      ExpireSparesPoll(Popped(s), Pop(EntryRanks, c.heap).1.id);
    }
  }

  // ---------- Why a callback can be early ----------

  /**
   The times, in nanoseconds, at which the actions of a run happen: they do not go back,
   clocks read them, and the kernel reports no expiry before the deadline it is armed for.
   */
  ghost predicate OnTime(actions: seq<Action>, times: seq<int>) {
    && |times| == |actions|
    && (forall i, j :: 0 <= i < j < |times| ==> times[i] <= times[j])
    && (forall i :: 0 <= i < |actions| && actions[i].Receive? ==> actions[i].now.Nanos() == times[i])
    && (forall i :: 0 <= i < |actions| && actions[i].Wake? && Enabled(Run(actions[..i]), actions[i]) ==>
          Run(actions[..i]).containers[actions[i].container].armed.value.Nanos() <= times[i])
  }

  /** At position i of a run the kernel reports the expiry of container b. */
  ghost predicate Woken(actions: seq<Action>, i: nat, b: bool) {
    i < |actions| && actions[i] == Wake(b) && Enabled(Run(actions[..i]), Wake(b))
  }

  /** At position j the Expire message of the drain begins to be processed. */
  ghost predicate Received(actions: seq<Action>, j: nat, dr: Drain) {
    && j < |actions| && actions[j] == Receive(dr.now) && Enabled(Run(actions[..j]), Receive(dr.now))
    && Run(actions[..j]).queue[0] == MsgExpire(dr.container)
    && Run(actions[..j]).containers[dr.container].heap == dr.before
  }

  lemma RunHasContainers(actions: seq<Action>)
    ensures forall b :: b in Run(actions).containers
  {
    RunsKeep(actions);
  }

  /** A drain under way goes back to the receipt of its message. */
  lemma {:induction false} DrainWasReceived(actions: seq<Action>) returns (j: nat)
    requires Run(actions).draining.Some?
    ensures Received(actions, j, Run(actions).draining.value)
  {
    var front, a := actions[..|actions| - 1], actions[|actions| - 1];
    var s := Run(front);
    RunHasContainers(front);
    if s.draining.None? {
      DrainBegins(s, a);
      j := |front|;
    } else {
      j := DrainWasReceived(front);
      DrainGoesOn(s, a);
      assert front[..j] == actions[..j];
    }
  }

  lemma DrainBegins(s: State, a: Action)
    requires (forall b :: b in s.containers) && s.draining.None? && Next(s, a).draining.Some?
    ensures var dr := Next(s, a).draining.value;
            && a == Receive(dr.now) && Enabled(s, a) && s.queue[0] == MsgExpire(dr.container)
            && s.containers[dr.container].heap == dr.before
  {
    match a
    case Receive(now) => ReceiveBegins(s, now);
    case _ => if IsClients(a) { ClientSparesPoll(s, a); } else { PollSparesDrain(s, a); }
  }

  lemma ReceiveBegins(s: State, now: BootTime)
    requires Enabled(s, Receive(now)) && ReceiveStep(s, now).draining.Some?
    ensures s.queue[0].MsgExpire?
  {
  }

  lemma DrainGoesOn(s: State, a: Action)
    requires (forall b :: b in s.containers) && s.draining.Some? && Next(s, a).draining.Some?
    ensures var dr, dr' := s.draining.value, Next(s, a).draining.value;
            dr'.container == dr.container && dr'.now == dr.now && dr'.before == dr.before
  {
    match a
    case DrainNext => RoundGoesOn(s);
    case Receive(_) =>
    case _ => if IsClients(a) { ClientSparesPoll(s, a); } else { PollSparesDrain(s, a); }
  }

  lemma RoundGoesOn(s: State)
    requires Enabled(s, DrainNext) && DrainStep(s).draining.Some?
    ensures var dr, dr' := s.draining.value, DrainStep(s).draining.value;
            dr'.container == dr.container && dr'.now == dr.now && dr'.before == dr.before
  {
    var dr := s.draining.value;
    var c := s.containers[dr.container];
    if Alive(c.heap, s.delegates) && !DrainDone(c.heap, dr.now, dr.drained == []) {
      ExpireSparesPoll(Popped(s), Pop(EntryRanks, c.heap).1.id);
    }
  }

  /** An Expire on its way through the poll thread or the queue goes back to a report of the kernel. */
  lemma {:induction false} ExpireWasReported(actions: seq<Action>, b: bool) returns (i: nat)
    requires b in Run(actions).containers
    requires Run(actions).containers[b].pc != Waiting || MsgExpire(b) in Run(actions).queue
    ensures Woken(actions, i, b)
  {
    var front, a := actions[..|actions| - 1], actions[|actions| - 1];
    var s := Run(front);
    RunHasContainers(front);
    if s.containers[b].pc != Waiting || MsgExpire(b) in s.queue {
      i := ExpireWasReported(front, b);
      assert front[..i] == actions[..i];
    } else {
      i := |front|;
      OnlyWakeReports(s, a, b);
    }
  }

  lemma OnlyWakeReports(s: State, a: Action, b: bool)
    requires (forall b :: b in s.containers) && s.containers[b].pc == Waiting && MsgExpire(b) !in s.queue
    requires b in Next(s, a).containers && (Next(s, a).containers[b].pc != Waiting || MsgExpire(b) in Next(s, a).queue)
    ensures a == Wake(b) && Enabled(s, a)
  {
    match a
    case Receive(now) => if Enabled(s, a) { ReceiveSparesPoll(s, now, b); }
    case DrainNext => if Enabled(s, a) { DrainSparesPoll(s, b); }
    case _ => if IsClients(a) { ClientSparesPoll(s, a); } else { PollReports(s, a, b); }
  }

  /** The kernel reports the expiry of the heap's top, unless an earlier Expire has not been dealt with. */
  lemma WokenForTop(actions: seq<Action>, i: nat, b: bool)
    requires Woken(actions, i, b)
    ensures var s := Run(actions[..i]);
            && b in s.containers && s.containers[b].armed.Some?
            && (|| s.containers[b].heap.Leaf?
                || s.containers[b].armed.value == s.containers[b].heap.data.time
                || MsgExpire(b) in s.queue
                || (s.draining.Some? && s.draining.value.container == b))
  {
    var s := Run(actions[..i]);
    RunsKeep(actions[..i]);
    assert Covered(b, s.containers[b], s.queue, s.draining);
  }

  /** The entries an expiry was reported for: those due by the deadline the kernel was armed for. */
  ghost predicate ReportedAt(actions: seq<Action>, i: nat, b: bool, e: Entry)
    requires Woken(actions, i, b)
  {
    var c := Run(actions[..i]).containers[b];
    Occ(c.heap, e) > 0 && e.time.Nanos() <= c.armed.value.Nanos()
  }

  /** The loop of an Expire message is about to pop a timer before its deadline. */
  ghost predicate PopsEarly(s: State) {
    && Enabled(s, DrainNext)
    && var dr := s.draining.value;
    && !DrainDone(s.containers[dr.container].heap, dr.now, dr.drained == [])
    && dr.now.Nanos() < s.containers[dr.container].heap.data.time.Nanos()
  }

  /**
   With a kernel that is never early, a timer is popped before its deadline only if all the
   entries an expiry had been reported for have left the heap before its Expire message
   was taken from the queue: popped by another Expire, or removed by a stop.
   */
  lemma EarlyIsOvertaken(actions: seq<Action>, times: seq<int>) returns (j: nat, i: nat)
    requires OnTime(actions, times) && PopsEarly(Run(actions))
    ensures var dr := Run(actions).draining.value;
            && Received(actions, j, dr) && i < j && Woken(actions, i, dr.container)
            && (forall k, e :: 0 <= k < j && Woken(actions, k, dr.container) && ReportedAt(actions, k, dr.container, e)
                  ==> Occ(dr.before, e) == 0)
  {
    var dr := Run(actions).draining.value;
    EarlyIsFirst(actions);
    j := DrainWasReceived(actions);
    i := ExpireWasReported(actions[..j], dr.container);
    assert actions[..j][..i] == actions[..i];
    forall k, e | 0 <= k < j && Woken(actions, k, dr.container) && ReportedAt(actions, k, dr.container, e)
      ensures Occ(dr.before, e) == 0
    {
      NoneLeft(actions, times, j, k, dr, e);
    }
  }

  lemma NoneLeft(actions: seq<Action>, times: seq<int>, j: nat, k: nat, dr: Drain, e: Entry)
    requires OnTime(actions, times) && k < j && Received(actions, j, dr)
    requires Woken(actions, k, dr.container) && ReportedAt(actions, k, dr.container, e)
    requires IsHeap(EntryRanks, dr.before) && dr.before.Node? && dr.now.Nanos() < dr.before.data.time.Nanos()
    ensures Occ(dr.before, e) == 0
  {
    assert times[k] <= times[j] == dr.now.Nanos();
    if Occ(dr.before, e) > 0 {
      TopIsSoonest(dr.before, e);
    }
  }

  lemma RunDrainsOk(actions: seq<Action>)
    requires Run(actions).draining.Some?
    ensures var s := Run(actions);
            s.draining.value.container in s.containers &&
              DrainOk(s.draining.value, s.containers[s.draining.value.container].heap)
  {
    RunsKeep(actions);
  }

  lemma EarlyIsFirst(actions: seq<Action>)
    requires PopsEarly(Run(actions))
    ensures var dr := Run(actions).draining.value;
            IsHeap(EntryRanks, dr.before) && dr.before.Node? && dr.now.Nanos() < dr.before.data.time.Nanos()
  {
    RunDrainsOk(actions);
    var dr := Run(actions).draining.value;
    FirstIsEarly(dr, Run(actions).containers[dr.container].heap);
  }

  lemma FirstIsEarly(dr: Drain, heap: Tree<Entry>)
    requires DrainOk(dr, heap) && !DrainDone(heap, dr.now, dr.drained == []) && dr.now.Nanos() < heap.data.time.Nanos()
    ensures heap == dr.before && IsHeap(EntryRanks, dr.before)
  {
    OutRanksIsSooner(Entry(0, dr.now), heap.data);
  }
}
