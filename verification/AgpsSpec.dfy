/**
 The AGPS state machine as functions on its state and a log of what it was told and
 what it sent, and the laws of that log.
 */
module AgpsSpec {
  datatype AgpsState = Released | Pending | Acquired | Releasing

  datatype Subscriber = Subscriber(mConnHandle: int, mWaitForCloseComplete: bool, mIsInactive: bool)

  /** What passes between the machine, the framework and the subscribers, and who joins or is dropped. */
  datatype Entry =
    | Subscribed(handle: int)                // a SUBSCRIBE event
    | Granted | ReleasedByPeer | Denied      // events from the framework
    | RequestConn | ReleaseConn              // requests to the framework
    | OpenStatus(handle: int, ok: bool)      // mAtlOpenStatusCb
    | CloseStatus(handle: int)               // mAtlCloseStatusCb with status 1
    | Joined(handle: int)                    // added to the list
    | Dropped(handle: int)                   // discarded by modem SSR, without notice

  datatype Machine = Machine(mState: AgpsState, mSubscriberList: seq<Subscriber>, log: seq<Entry>)

  const NEW_MACHINE := Machine(Released, [], [])

  datatype Audience = All | Inactive | Active

  // ---------- The subscriber list ----------

  predicate Has(list: seq<Subscriber>, handle: int) {
    exists s :: s in list && s.mConnHandle == handle
  }

  predicate AnyActive(list: seq<Subscriber>) {
    exists s :: s in list && !s.mIsInactive
  }

  predicate Addressed(s: Subscriber, who: Audience) {
    who.All? || (who.Inactive? && s.mIsInactive) || (who.Active? && !s.mIsInactive)
  }

  function Without(list: seq<Subscriber>, handle: int): seq<Subscriber> {
    if list == [] then [] else
    var s := list[|list| - 1];
    Without(list[..|list| - 1], handle) + if s.mConnHandle == handle then [] else [s]
  }

  function Unaddressed(list: seq<Subscriber>, who: Audience): seq<Subscriber> {
    if list == [] then [] else
    var s := list[|list| - 1];
    Unaddressed(list[..|list| - 1], who) + if Addressed(s, who) then [] else [s]
  }

  datatype Notice = NoticeGranted | NoticeDenied | NoticeClosed

  function StatusOf(n: Notice, handle: int): Entry {
    match n
    case NoticeGranted => OpenStatus(handle, true)
    case NoticeDenied => OpenStatus(handle, false)
    case NoticeClosed => CloseStatus(handle)
  }

  function Notices(list: seq<Subscriber>, n: Notice, who: Audience): seq<Entry> {
    if list == [] then [] else
    var s := list[|list| - 1];
    Notices(list[..|list| - 1], n, who) + if Addressed(s, who) then [StatusOf(n, s.mConnHandle)] else []
  }

  function Drops(list: seq<Subscriber>): seq<Entry> {
    if list == [] then [] else Drops(list[..|list| - 1]) + [Dropped(list[|list| - 1].mConnHandle)]
  }

  // ---------- Events ----------

  function Say(m: Machine, e: Entry): Machine {
    m.(log := m.log + [e])
  }

  function AddSubscriber(m: Machine, s: Subscriber): Machine {
    if Has(m.mSubscriberList, s.mConnHandle) then m
    else Say(m.(mSubscriberList := m.mSubscriberList + [s]), Joined(s.mConnHandle))
  }

  function NotifyAll(m: Machine, n: Notice, delete: bool, who: Audience): Machine {
    m.(log := m.log + Notices(m.mSubscriberList, n, who),
       mSubscriberList := if delete then Unaddressed(m.mSubscriberList, who) else m.mSubscriberList)
  }

  function Subscribe(m0: Machine, s: Subscriber): Machine {
    var m := Say(m0, Subscribed(s.mConnHandle));
    match m.mState
    case Released => Say(AddSubscriber(m, s), RequestConn).(mState := Pending)
    case Acquired => AddSubscriber(Say(m, OpenStatus(s.mConnHandle, true)), s)
    case _ => AddSubscriber(m, s)
  }

  /** A subscriber that waits for the close becomes inactive; another is told and leaves. */
  function Leave(m: Machine, i: nat): Machine
    requires i < |m.mSubscriberList|
  {
    var s := m.mSubscriberList[i];
    if s.mWaitForCloseComplete then
      m.(mSubscriberList := m.mSubscriberList[i := s.(mIsInactive := true)])
    else
      Say(m, CloseStatus(s.mConnHandle)).(mSubscriberList := Without(m.mSubscriberList, s.mConnHandle))
  }

  /** i is where the current subscriber is in the list. */
  function Unsubscribe(m: Machine, i: nat): Machine
    requires i < |m.mSubscriberList|
  {
    match m.mState
    case Released => Say(m, CloseStatus(m.mSubscriberList[i].mConnHandle))
    case Releasing =>
      var l := Leave(m, i);
      if l.mSubscriberList == [] then l.(mState := Released) else l
    case _ =>
      var l := Leave(m, i);
      if l.mSubscriberList == [] then Say(l, ReleaseConn).(mState := Released)
      else if !AnyActive(l.mSubscriberList) then Say(l, ReleaseConn).(mState := Releasing)
      else l
  }

  function OnGranted(m0: Machine): Machine {
    var m := Say(m0, Granted);
    if m.mState == Pending then NotifyAll(m.(mState := Acquired), NoticeGranted, false, Active) else m
  }

  /** RELEASING ends the same way whether the release is confirmed or denied. */
  function FinishReleasing(m: Machine): Machine {
    var n := NotifyAll(m, NoticeClosed, true, Inactive);
    if AnyActive(n.mSubscriberList) then Say(n, RequestConn).(mState := Pending)
    else n.(mState := Released)
  }

  function OnReleased(m0: Machine): Machine {
    var m := Say(m0, ReleasedByPeer);
    match m.mState
    case Acquired => NotifyAll(m.(mState := Released), NoticeClosed, true, All)
    case Releasing => FinishReleasing(m)
    case _ => m
  }

  function OnDenied(m0: Machine): Machine {
    var m := Say(m0, Denied);
    match m.mState
    case Releasing => FinishReleasing(m)
    case Pending => NotifyAll(m.(mState := Released), NoticeDenied, true, All)
    case _ => m
  }

  function DropAll(m: Machine): Machine {
    m.(mSubscriberList := [], log := m.log + Drops(m.mSubscriberList))
  }

  // ---------- What the log says ----------

  /** The data connection as the framework sees it. */
  datatype Phase = Closed | Requested | Open

  /** ok: every request so far was made on a closed connection, every release on one not closed. */
  datatype Conn = Conn(phase: Phase, ok: bool)

  function ConnStep(c: Conn, e: Entry): Conn {
    match e
    case RequestConn => Conn(Requested, c.ok && c.phase.Closed?)
    case ReleaseConn => Conn(Closed, c.ok && !c.phase.Closed?)
    case Granted => if c.phase.Requested? then c.(phase := Open) else c
    case Denied => if c.phase.Requested? then c.(phase := Closed) else c
    case ReleasedByPeer => if c.phase.Open? then c.(phase := Closed) else c
    case _ => c
  }

  function ConnOf(log: seq<Entry>): Conn {
    if log == [] then Conn(Closed, true) else ConnStep(ConnOf(log[..|log| - 1]), log[|log| - 1])
  }

  /**
   One handle: whether it is a member, whether it was granted since it last subscribed,
   and whether it joined only while out and got a final status only while in.
   */
  datatype Track = Track(member: bool, granted: bool, ok: bool)

  function TrackStep(t: Track, e: Entry, h: int): Track {
    match e
    case Subscribed(x) => if x == h then t.(granted := false) else t
    case OpenStatus(x, true) => if x == h then t.(granted := true) else t
    case OpenStatus(x, false) => if x == h then Track(false, false, t.ok && t.member) else t
    case CloseStatus(x) => if x == h then Track(false, false, t.ok && t.member) else t
    case Joined(x) => if x == h then t.(member := true, ok := t.ok && !t.member) else t
    case Dropped(x) => if x == h then Track(false, false, t.ok && t.member) else t
    case _ => t
  }

  function TrackOf(log: seq<Entry>, h: int): Track {
    if log == [] then Track(false, false, true) else TrackStep(TrackOf(log[..|log| - 1], h), log[|log| - 1], h)
  }

  lemma ConnSnoc(log: seq<Entry>, e: Entry)
    ensures ConnOf(log + [e]) == ConnStep(ConnOf(log), e)
  {
    assert (log + [e])[..|log + [e]| - 1] == log;
  }

  lemma LogSnoc(log: seq<Entry>, e: Entry, h: int)
    ensures ConnOf(log + [e]) == ConnStep(ConnOf(log), e)
    ensures TrackOf(log + [e], h) == TrackStep(TrackOf(log, h), e, h)
  {
    assert (log + [e])[..|log + [e]| - 1] == log;
  }

  // ---------- Lists ----------

  ghost predicate DistinctHandles(list: seq<Subscriber>) {
    forall i, j :: 0 <= i < j < |list| ==> list[i].mConnHandle != list[j].mConnHandle
  }

  lemma {:induction false} WithoutIs(list: seq<Subscriber>, h: int)
    ensures forall s :: s in Without(list, h) <==> s in list && s.mConnHandle != h
    ensures DistinctHandles(list) ==> DistinctHandles(Without(list, h))
  {
    if list != [] {
      var front, last := list[..|list| - 1], list[|list| - 1];
      WithoutIs(front, h);
      assert list == front + [last];
      assert DistinctHandles(list) ==> forall s :: s in front ==> s.mConnHandle != last.mConnHandle;
    }
  }

  lemma {:induction false} UnaddressedIs(list: seq<Subscriber>, who: Audience)
    ensures forall s :: s in Unaddressed(list, who) <==> s in list && !Addressed(s, who)
    ensures DistinctHandles(list) ==> DistinctHandles(Unaddressed(list, who))
  {
    if list != [] {
      var front, last := list[..|list| - 1], list[|list| - 1];
      UnaddressedIs(front, who);
      assert list == front + [last];
      assert DistinctHandles(list) ==> forall s :: s in front ==> s.mConnHandle != last.mConnHandle;
    }
  }

  /** An entry that does not concern the connection. */
  predicate Spare(e: Entry) { e.OpenStatus? || e.CloseStatus? }

  lemma {:induction false} SpareTail(log: seq<Entry>, tail: seq<Entry>)
    requires forall e :: e in tail ==> Spare(e)
    ensures ConnOf(log + tail) == ConnOf(log)
  {
    if tail == [] {
      assert log + [] == log;
    } else {
      var front, e := tail[..|tail| - 1], tail[|tail| - 1];
      assert Spare(e) by {
        assert e in tail;
      }
      SpareTail(log, front);
      assert log + tail == (log + front) + [e];
      ConnSnoc(log + front, e);
    }
  }

  lemma {:induction false} NoticesAreSpare(list: seq<Subscriber>, n: Notice, who: Audience)
    ensures forall e :: e in Notices(list, n, who) ==> Spare(e)
  {
    if list != [] {
      NoticesAreSpare(list[..|list| - 1], n, who);
    }
  }

  /** Notices do not concern the connection. */
  lemma NoticesSparePhase(log: seq<Entry>, list: seq<Subscriber>, n: Notice, who: Audience)
    ensures ConnOf(log + Notices(list, n, who)) == ConnOf(log)
  {
    NoticesAreSpare(list, n, who);
    SpareTail(log, Notices(list, n, who));
  }

  predicate Told(list: seq<Subscriber>, who: Audience, h: int) {
    exists s :: s in list && s.mConnHandle == h && Addressed(s, who)
  }

  lemma ToldSnoc(front: seq<Subscriber>, last: Subscriber, who: Audience, h: int)
    requires DistinctHandles(front + [last])
    ensures Told(front + [last], who, h) <==> Told(front, who, h) || (last.mConnHandle == h && Addressed(last, who))
    ensures last.mConnHandle == h ==> !Told(front, who, h)
    ensures DistinctHandles(front)
  {
    var list := front + [last];
    assert forall s :: s in list <==> s in front || s == last;
    assert forall i :: 0 <= i < |front| ==> list[i] == front[i];
    assert list[|front|] == last;
  }

  lemma OneMore<T>(a: seq<T>, b: seq<T>, x: T)
    ensures a + (b + [x]) == (a + b) + [x]
  {
  }

  /** One more notice concerns its own handle only. */
  lemma NoticeTracks(log: seq<Entry>, said: seq<Entry>, n: Notice, x: int, h: int)
    ensures TrackOf(log + (said + [StatusOf(n, x)]), h)
         == if x == h then TrackStep(TrackOf(log + said, h), StatusOf(n, h), h) else TrackOf(log + said, h)
  {
    OneMore(log, said, StatusOf(n, x));
    LogSnoc(log + said, StatusOf(n, x), h);
  }

  /** Notices tell each addressed subscriber, once. */
  lemma {:induction false} NoticesSay(log: seq<Entry>, list: seq<Subscriber>, n: Notice, who: Audience, h: int)
    requires DistinctHandles(list)
    ensures TrackOf(log + Notices(list, n, who), h)
         == if Told(list, who, h) then TrackStep(TrackOf(log, h), StatusOf(n, h), h) else TrackOf(log, h)
  {
    if list == [] {
      assert log + [] == log;
    } else {
      var front, last := list[..|list| - 1], list[|list| - 1];
      assert list == front + [last];
      ToldSnoc(front, last, who, h);
      NoticesSay(log, front, n, who, h);
      var said := Notices(front, n, who);
      if Addressed(last, who) {
        NoticeTracks(log, said, n, last.mConnHandle, h);
      } else {
        assert said + [] == said;
      }
    }
  }

  lemma {:induction false} DropsSay(log: seq<Entry>, list: seq<Subscriber>, h: int)
    requires DistinctHandles(list)
    ensures ConnOf(log + Drops(list)) == ConnOf(log)
    ensures TrackOf(log + Drops(list), h)
         == if Has(list, h) then TrackStep(TrackOf(log, h), Dropped(h), h) else TrackOf(log, h)
  {
    if list == [] {
      assert log + [] == log;
    } else {
      var front, last := list[..|list| - 1], list[|list| - 1];
      assert list == front + [last];
      DropsSay(log, front, h);
      assert log + Drops(list) == (log + Drops(front)) + [Dropped(last.mConnHandle)];
      LogSnoc(log + Drops(front), Dropped(last.mConnHandle), h);
    }
  }

  // ---------- Laws ----------

  /** The connection is requested exactly in PENDING, open exactly in ACQUIRED, and closed otherwise. */
  ghost predicate ConnLaw(m: Machine) {
    && ConnOf(m.log).ok
    && ConnOf(m.log).phase == match m.mState
                              case Pending => Requested
                              case Acquired => Open
                              case _ => Closed
  }

  /** h is a member exactly when it is in the list; while it is active there, it is granted exactly in ACQUIRED. */
  ghost predicate TrackLaw(m: Machine, h: int) {
    && TrackOf(m.log, h).ok
    && (TrackOf(m.log, h).member <==> Has(m.mSubscriberList, h))
    && (forall s :: s in m.mSubscriberList && s.mConnHandle == h && !s.mIsInactive ==>
          (TrackOf(m.log, h).granted <==> m.mState == Acquired))
  }

  ghost predicate ListLaw(m: Machine) {
    && DistinctHandles(m.mSubscriberList)
    && (forall s :: s in m.mSubscriberList && s.mIsInactive ==> s.mWaitForCloseComplete)
    && (m.mState == Released ==> m.mSubscriberList == [])
  }

  /** Holds of every machine, modem SSR included. */
  ghost predicate Law(m: Machine, h: int) {
    ListLaw(m) && ConnLaw(m) && TrackLaw(m, h)
  }

  /** Holds besides while no SSR has dropped subscribers. */
  ghost predicate Staffed(m: Machine) {
    match m.mState
    case Released => true
    case Pending => AnyActive(m.mSubscriberList)
    case Acquired => AnyActive(m.mSubscriberList)
    case Releasing => exists s :: s in m.mSubscriberList && s.mIsInactive
  }

  /** Adding s while the log has just recorded its SUBSCRIBE event, and a grant if it is due one. */
  lemma AddKeeps(m: Machine, s: Subscriber, h: int)
    requires DistinctHandles(m.mSubscriberList) && TrackLaw(m, h) && !s.mIsInactive
    requires forall y :: y in m.mSubscriberList && y.mIsInactive ==> y.mWaitForCloseComplete
    requires s.mConnHandle == h ==> (TrackOf(m.log, h).granted <==> m.mState == Acquired)
    ensures var a := AddSubscriber(m, s);
            && DistinctHandles(a.mSubscriberList) && TrackLaw(a, h) && a.mState == m.mState
            && ConnOf(a.log) == ConnOf(m.log)
            && (forall y :: y in a.mSubscriberList && y.mIsInactive ==> y.mWaitForCloseComplete)
            && (forall y :: y in m.mSubscriberList ==> y in a.mSubscriberList)
            && (!Has(m.mSubscriberList, s.mConnHandle) ==> s in a.mSubscriberList)
  {
    LogSnoc(m.log, Joined(s.mConnHandle), h);
    var list' := m.mSubscriberList + [s];
    assert forall y :: y in list' <==> y in m.mSubscriberList || y == s;
  }

  /** The log after the SUBSCRIBE event and, in ACQUIRED, the grant that answers it. */
  function Answered(m: Machine, x: int): Machine {
    var m1 := Say(m, Subscribed(x));
    if m.mState.Acquired? then Say(m1, OpenStatus(x, true)) else m1
  }

  lemma AnsweredKeeps(m: Machine, x: int, h: int)
    requires TrackLaw(m, h)
    ensures TrackLaw(Answered(m, x), h) && ConnOf(Answered(m, x).log) == ConnOf(m.log)
    ensures x == h ==> (TrackOf(Answered(m, x).log, h).granted <==> m.mState == Acquired)
  {
    LogSnoc(m.log, Subscribed(x), h);
    LogSnoc(m.log + [Subscribed(x)], OpenStatus(x, true), h);
  }

  lemma AnsweredAndAdded(m: Machine, s: Subscriber, h: int)
    requires Law(m, h) && !s.mIsInactive
    ensures var a := AddSubscriber(Answered(m, s.mConnHandle), s);
            && DistinctHandles(a.mSubscriberList) && TrackLaw(a, h) && a.mState == m.mState
            && ConnOf(a.log) == ConnOf(m.log)
            && (forall y :: y in a.mSubscriberList && y.mIsInactive ==> y.mWaitForCloseComplete)
            && (forall y :: y in m.mSubscriberList ==> y in a.mSubscriberList)
            && (!Has(m.mSubscriberList, s.mConnHandle) ==> s in a.mSubscriberList)
  {
    AnsweredKeeps(m, s.mConnHandle, h);
    AddKeeps(Answered(m, s.mConnHandle), s, h);
  }

  lemma SubscribeIs(m: Machine, s: Subscriber)
    ensures var a := AddSubscriber(Answered(m, s.mConnHandle), s);
            Subscribe(m, s) == if m.mState.Released? then Say(a, RequestConn).(mState := Pending) else a
  {
  }

  lemma SubscribeKeeps(m: Machine, s: Subscriber, h: int)
    requires Law(m, h) && !s.mIsInactive
    ensures Law(Subscribe(m, s), h)
    ensures Staffed(m) ==> Staffed(Subscribe(m, s))
  {
    AnsweredAndAdded(m, s, h);
    SubscribeIs(m, s);
    LogSnoc(AddSubscriber(Answered(m, s.mConnHandle), s).log, RequestConn, h);
  }

  lemma LeaveKeeps(m: Machine, i: nat, h: int)
    requires DistinctHandles(m.mSubscriberList) && TrackLaw(m, h) && i < |m.mSubscriberList|
    requires forall s :: s in m.mSubscriberList && s.mIsInactive ==> s.mWaitForCloseComplete
    ensures var l := Leave(m, i);
            && DistinctHandles(l.mSubscriberList) && TrackLaw(l, h) && l.mState == m.mState
            && ConnOf(l.log) == ConnOf(m.log)
            && (forall s :: s in l.mSubscriberList && s.mIsInactive ==> s.mWaitForCloseComplete)
            && ((exists s :: s in m.mSubscriberList && s.mIsInactive) ==>
                  exists s :: s in l.mSubscriberList && s.mIsInactive)
  {
    var list, l := m.mSubscriberList, Leave(m, i);
    var s := list[i];
    if s.mWaitForCloseComplete {
      var s' := s.(mIsInactive := true);
      assert l.mSubscriberList[i] == s';
      forall y ensures y in l.mSubscriberList ==> y == s' || (y in list && y.mConnHandle != s.mConnHandle) {
      }
      forall y | y in list && y.mConnHandle != s.mConnHandle ensures y in l.mSubscriberList {
        var j :| 0 <= j < |list| && list[j] == y;
        assert l.mSubscriberList[j] == y;
      }
    } else {
      WithoutIs(list, s.mConnHandle);
      LogSnoc(m.log, CloseStatus(s.mConnHandle), h);
    }
  }

  lemma UnsubscribeKeeps(m: Machine, i: nat, h: int)
    requires Law(m, h) && i < |m.mSubscriberList|
    ensures Law(Unsubscribe(m, i), h)
    ensures Staffed(m) ==> Staffed(Unsubscribe(m, i))
  {
    LeaveKeeps(m, i, h);
    var l := Leave(m, i);
    LogSnoc(l.log, ReleaseConn, h);
    if l.mSubscriberList != [] {
      assert l.mSubscriberList[0] in l.mSubscriberList;
    }
  }

  lemma GrantedKeeps(m: Machine, h: int)
    requires Law(m, h)
    ensures Law(OnGranted(m), h)
    ensures Staffed(m) ==> Staffed(OnGranted(m))
  {
    var log1 := m.log + [Granted];
    LogSnoc(m.log, Granted, h);
    NoticesSparePhase(log1, m.mSubscriberList, NoticeGranted, Active);
    NoticesSay(log1, m.mSubscriberList, NoticeGranted, Active, h);
  }

  /** Closing notices to an audience that then leaves. */
  lemma FinalNoticesKeep(m: Machine, n: Notice, who: Audience, h: int)
    requires DistinctHandles(m.mSubscriberList) && TrackOf(m.log, h).ok
    requires TrackOf(m.log, h).member <==> Has(m.mSubscriberList, h)
    requires forall s :: s in m.mSubscriberList && s.mIsInactive ==> s.mWaitForCloseComplete
    requires !n.NoticeGranted?
    ensures var r := NotifyAll(m, n, true, who);
            && DistinctHandles(r.mSubscriberList) && ConnOf(r.log) == ConnOf(m.log)
            && TrackOf(r.log, h).ok && (TrackOf(r.log, h).member <==> Has(r.mSubscriberList, h))
            && (Has(r.mSubscriberList, h) ==> TrackOf(r.log, h) == TrackOf(m.log, h))
            && (forall s :: s in r.mSubscriberList <==> s in m.mSubscriberList && !Addressed(s, who))
  {
    UnaddressedIs(m.mSubscriberList, who);
    NoticesSparePhase(m.log, m.mSubscriberList, n, who);
    NoticesSay(m.log, m.mSubscriberList, n, who, h);
  }

  lemma SomeoneIn(list: seq<Subscriber>)
    ensures list == [] || exists s :: s in list
  {
    assert list != [] ==> list[0] in list;
  }

  lemma FinishReleasingKeeps(m: Machine, h: int)
    requires Law(m, h) && m.mState == Releasing
    ensures Law(FinishReleasing(m), h) && Staffed(FinishReleasing(m))
  {
    FinalNoticesKeep(m, NoticeClosed, Inactive, h);
    var r := NotifyAll(m, NoticeClosed, true, Inactive);
    LogSnoc(r.log, RequestConn, h);
    if !AnyActive(r.mSubscriberList) {
      SomeoneIn(r.mSubscriberList);
    }
  }

  lemma InputKeeps(m: Machine, e: Entry, h: int)
    requires Law(m, h) && (e.Granted? || e.Denied? || e.ReleasedByPeer?)
    ensures TrackOf(m.log + [e], h) == TrackOf(m.log, h) && ConnOf(m.log + [e]) == ConnStep(ConnOf(m.log), e)
  {
    LogSnoc(m.log, e, h);
  }

  lemma EveryoneLeavesKeeps(m: Machine, n: Notice, h: int)
    requires DistinctHandles(m.mSubscriberList) && TrackOf(m.log, h).ok && ConnOf(m.log) == Conn(Closed, true)
    requires TrackOf(m.log, h).member <==> Has(m.mSubscriberList, h)
    requires forall s :: s in m.mSubscriberList && s.mIsInactive ==> s.mWaitForCloseComplete
    requires m.mState == Released && !n.NoticeGranted?
    ensures Law(NotifyAll(m, n, true, All), h)
  {
    FinalNoticesKeep(m, n, All, h);
    SomeoneIn(NotifyAll(m, n, true, All).mSubscriberList);
  }

  lemma ReleasedKeeps(m: Machine, h: int)
    requires Law(m, h)
    ensures Law(OnReleased(m), h)
    ensures Staffed(m) ==> Staffed(OnReleased(m))
  {
    var m1 := Say(m, ReleasedByPeer);
    InputKeeps(m, ReleasedByPeer, h);
    match m.mState
    case Acquired => EveryoneLeavesKeeps(m1.(mState := Released), NoticeClosed, h);
    case Releasing => FinishReleasingKeeps(m1, h);
    case _ =>
  }

  lemma DeniedKeeps(m: Machine, h: int)
    requires Law(m, h)
    ensures Law(OnDenied(m), h)
    ensures Staffed(m) ==> Staffed(OnDenied(m))
  {
    var m1 := Say(m, Denied);
    InputKeeps(m, Denied, h);
    match m.mState
    case Pending => EveryoneLeavesKeeps(m1.(mState := Released), NoticeDenied, h);
    case Releasing => FinishReleasingKeeps(m1, h);
    case _ =>
  }

  lemma DropKeeps(m: Machine, h: int)
    requires Law(m, h)
    ensures Law(DropAll(m), h)
  {
    DropsSay(m.log, m.mSubscriberList, h);
  }

  // ---------- What the laws mean ----------

  function CountOf(log: seq<Entry>, p: Entry -> bool): nat {
    if log == [] then 0 else CountOf(log[..|log| - 1], p) + if p(log[|log| - 1]) then 1 else 0
  }

  predicate IsFinal(e: Entry, h: int) {
    e == OpenStatus(h, false) || e == CloseStatus(h)
  }

  /** Every time h joined, one final status or one silent drop has followed, except for the membership it has now. */
  lemma {:induction false} OneFinalStatusEach(log: seq<Entry>, h: int)
    requires TrackOf(log, h).ok
    ensures CountOf(log, e => e == Joined(h))
         == CountOf(log, e => IsFinal(e, h)) + CountOf(log, e => e == Dropped(h))
           + if TrackOf(log, h).member then 1 else 0
  {
    if log != [] {
      OneFinalStatusEach(log[..|log| - 1], h);
    }
  }

  /** REQUEST is sent only while the connection is closed, RELEASE only while it is requested or open. */
  lemma {:induction false} RequestsAlternate(log: seq<Entry>, i: nat)
    requires ConnOf(log).ok && i < |log|
    ensures log[i] == RequestConn ==> ConnOf(log[..i]).phase == Closed
    ensures log[i] == ReleaseConn ==> ConnOf(log[..i]).phase != Closed
  {
    if i < |log| - 1 {
      RequestsAlternate(log[..|log| - 1], i);
      assert log[..|log| - 1][..i] == log[..i];
    }
  }
}
