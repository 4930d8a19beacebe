/**
 The AGPS machines as their handles see them. A handle is out, or in since a request of
 some type, and may have asked to leave. What it is told and where it goes next depends on
 that, on the state of its machine and on the event alone; a machine's next state depends
 on its handles only through whether any is left and whether any still wants it.
 */
module AgpsHandles {
  import opened Options
  import opened AgpsSpec
  import opened AgpsManagerSpec

  /** kind is the type of the request the membership began with. */
  datatype View = Out | In(kind: AgpsType, leaving: bool)

  datatype Event = Sub(handle: int, kind: AgpsType) | Unsub(handle: int) | Grant | Close | Deny | Reset

  /** Only an emergency request waits for the connection to be closed. */
  predicate Waits(v: View) {
    v.In? && v.kind.SuplEs?
  }

  function ViewNext(v: View, state: AgpsState, e: Event, h: int): View {
    match e
    case Sub(x, kind) => if x == h && v.Out? then In(kind, false) else v
    case Unsub(x) => if x != h || v.Out? then v else if Waits(v) then v.(leaving := true) else Out
    case Grant => v
    case Close => if state.Acquired? || (state.Releasing? && v.In? && v.leaving) then Out else v
    case Deny => if state.Pending? || (state.Releasing? && v.In? && v.leaving) then Out else v
    case Reset => Out
  }

  /** What the log says of the handle on an event: what it is told, and that it joins or is dropped. */
  function Said(v: View, state: AgpsState, e: Event, h: int): seq<Entry> {
    match e
    case Sub(x, _) =>
      if x != h then []
      else [Subscribed(h)] + (if state.Acquired? then [OpenStatus(h, true)] else [])
                           + (if v.Out? then [Joined(h)] else [])
    case Unsub(x) => if x == h && v.In? && !Waits(v) then [CloseStatus(h)] else []
    case Grant => if state.Pending? && v.In? && !v.leaving then [OpenStatus(h, true)] else []
    case Close => if v.In? && (state.Acquired? || (state.Releasing? && v.leaving)) then [CloseStatus(h)] else []
    case Deny =>
      if v.In? && state.Pending? then [OpenStatus(h, false)]
      else if v.In? && state.Releasing? && v.leaving then [CloseStatus(h)]
      else []
    case Reset => if v.In? then [Dropped(h)] else []
  }

  /** someone: a handle is in afterwards; active: one that does not want to leave. */
  function StateNext(state: AgpsState, e: Event, someone: bool, active: bool): AgpsState {
    match e
    case Sub(_, _) => if state.Released? then Pending else state
    case Unsub(_) =>
      if !someone then Released
      else if !active && (state.Pending? || state.Acquired?) then Releasing
      else state
    case Grant => if state.Pending? then Acquired else state
    case Close =>
      if state.Acquired? then Released
      else if state.Releasing? then (if active then Pending else Released)
      else state
    case Deny =>
      if state.Pending? then Released
      else if state.Releasing? then (if active then Pending else Released)
      else state
    case Reset => state
  }

  predicate Wanted(state: AgpsState) {
    state.Pending? || state.Acquired?
  }

  /** What passes between the machine and the framework: the event, and a request or a release. */
  function Dealt(state: AgpsState, e: Event, state': AgpsState): seq<Entry> {
    (match e
     case Grant => [Granted]
     case Close => [ReleasedByPeer]
     case Deny => [Denied]
     case _ => [])
    + (if !Wanted(state) && Wanted(state') then [RequestConn] else [])
    + (if e.Unsub? && Wanted(state) && !Wanted(state') then [ReleaseConn] else [])
  }

  // ---------- Parts of the log ----------

  predicate Concerns(e: Entry, h: int) {
    match e
    case Subscribed(x) => x == h
    case OpenStatus(x, _) => x == h
    case CloseStatus(x) => x == h
    case Joined(x) => x == h
    case Dropped(x) => x == h
    case _ => false
  }

  predicate WithFramework(e: Entry) {
    e.RequestConn? || e.ReleaseConn? || e.Granted? || e.ReleasedByPeer? || e.Denied?
  }

  function About(log: seq<Entry>, h: int): seq<Entry> {
    if log == [] then []
    else About(log[..|log| - 1], h) + if Concerns(log[|log| - 1], h) then [log[|log| - 1]] else []
  }

  function Dealings(log: seq<Entry>): seq<Entry> {
    if log == [] then []
    else Dealings(log[..|log| - 1]) + if WithFramework(log[|log| - 1]) then [log[|log| - 1]] else []
  }

  lemma PartsSnoc(log: seq<Entry>, e: Entry, h: int)
    ensures About(log + [e], h) == About(log, h) + if Concerns(e, h) then [e] else []
    ensures Dealings(log + [e]) == Dealings(log) + if WithFramework(e) then [e] else []
  {
    assert (log + [e])[..|log + [e]| - 1] == log;
  }

  lemma AboutNotice(log: seq<Entry>, said: seq<Entry>, n: Notice, x: int, h: int)
    ensures About(log + (said + [StatusOf(n, x)]), h) == About(log + said, h) + if x == h then [StatusOf(n, h)] else []
    ensures Dealings(log + (said + [StatusOf(n, x)])) == Dealings(log + said)
  {
    OneMore(log, said, StatusOf(n, x));
    PartsSnoc(log + said, StatusOf(n, x), h);
    Unit(Dealings(log + said));
  }

  lemma Unit<T>(s: seq<T>)
    ensures s + [] == s && [] + s == s
  {
  }

  lemma Assoc<T>(a: seq<T>, b: seq<T>, c: seq<T>)
    ensures (a + b) + c == a + (b + c)
  {
  }

  lemma {:induction false} NoticesAre(log: seq<Entry>, list: seq<Subscriber>, n: Notice, who: Audience, h: int)
    requires DistinctHandles(list)
    ensures About(log + Notices(list, n, who), h) == About(log, h) + if Told(list, who, h) then [StatusOf(n, h)] else []
    ensures Dealings(log + Notices(list, n, who)) == Dealings(log)
  {
    Unit(About(log, h));
    if list == [] {
      Unit(log);
    } else {
      var front, last := list[..|list| - 1], list[|list| - 1];
      assert list == front + [last];
      ToldSnoc(front, last, who, h);
      NoticesAre(log, front, n, who, h);
      var said := Notices(front, n, who);
      Unit(said);
      Unit(About(log + said, h));
      if Addressed(last, who) {
        AboutNotice(log, said, n, last.mConnHandle, h);
      }
    }
  }

  lemma AboutDrop(log: seq<Entry>, said: seq<Entry>, x: int, h: int)
    ensures About(log + (said + [Dropped(x)]), h) == About(log + said, h) + if x == h then [Dropped(h)] else []
    ensures Dealings(log + (said + [Dropped(x)])) == Dealings(log + said)
  {
    OneMore(log, said, Dropped(x));
    PartsSnoc(log + said, Dropped(x), h);
    Unit(Dealings(log + said));
  }

  lemma {:induction false} DropsAre(log: seq<Entry>, list: seq<Subscriber>, h: int)
    requires DistinctHandles(list)
    ensures About(log + Drops(list), h) == About(log, h) + if Told(list, All, h) then [Dropped(h)] else []
    ensures Dealings(log + Drops(list)) == Dealings(log)
  {
    Unit(About(log, h));
    if list == [] {
      Unit(log);
    } else {
      var front, last := list[..|list| - 1], list[|list| - 1];
      assert list == front + [last];
      ToldSnoc(front, last, All, h);
      DropsAre(log, front, h);
      Unit(About(log + Drops(front), h));
      AboutDrop(log, Drops(front), last.mConnHandle, h);
    }
  }

  // ---------- One event ----------

  predicate Matches(s: Subscriber, h: int, v: View)
    requires v.In?
  {
    s.mConnHandle == h && s.mWaitForCloseComplete == v.kind.SuplEs? && s.mIsInactive == v.leaving
  }

  /** v is how handle h stands in the list. */
  ghost predicate Shows(list: seq<Subscriber>, h: int, v: View) {
    match v
    case Out => !Has(list, h)
    case In(_, _) =>
      exists s :: s in list && Matches(s, h, v)
  }

  /** The handle is told what its view says, and goes where its view says. */
  ghost predicate Follows(m: Machine, m': Machine, e: Event, v: View, h: int) {
    && About(m'.log, h) == About(m.log, h) + Said(v, m.mState, e, h)
    && Shows(m'.mSubscriberList, h, ViewNext(v, m.mState, e, h))
  }

  ghost predicate Moves(m: Machine, m': Machine, e: Event) {
    && m'.mState == StateNext(m.mState, e, m'.mSubscriberList != [], AnyActive(m'.mSubscriberList))
    && Dealings(m'.log) == Dealings(m.log) + Dealt(m.mState, e, m'.mState)
  }

  lemma OneOf(list: seq<Subscriber>, s: Subscriber, t: Subscriber)
    requires DistinctHandles(list) && s in list && t in list && s.mConnHandle == t.mConnHandle
    ensures s == t
  {
  }

  lemma AddShows(list: seq<Subscriber>, s: Subscriber, kind: AgpsType, h: int, v: View)
    requires Shows(list, h, v) && !Has(list, s.mConnHandle) && s.mWaitForCloseComplete == kind.SuplEs? && !s.mIsInactive
    ensures Shows(list + [s], h, if s.mConnHandle == h then In(kind, false) else v)
  {
    assert forall y :: y in list + [s] <==> y in list || y == s;
  }

  /** What a SUBSCRIBE of x adds to the log. */
  function Granting(x: int, yes: bool): seq<Entry> { if yes then [OpenStatus(x, true)] else [] }

  function Joining(x: int, yes: bool): seq<Entry> { if yes then [Joined(x)] else [] }

  function Asking(yes: bool): seq<Entry> { if yes then [RequestConn] else [] }

  lemma SubscribeLogIs(m: Machine, s: Subscriber)
    ensures var x := s.mConnHandle;
            Subscribe(m, s).log == m.log + [Subscribed(x)] + Granting(x, m.mState.Acquired?)
                                   + Joining(x, !Has(m.mSubscriberList, x)) + Asking(m.mState.Released?)
  {
    SubscribeIs(m, s);
  }

  lemma PiecesAbout(log: seq<Entry>, x: int, granted: bool, joined: bool, asked: bool, h: int)
    ensures About(log + [Subscribed(x)] + Granting(x, granted) + Joining(x, joined) + Asking(asked), h)
         == About(log, h) + if x == h then [Subscribed(x)] + Granting(x, granted) + Joining(x, joined) else []
  {
    var l1 := log + [Subscribed(x)];
    var l2 := l1 + Granting(x, granted);
    NotConcerned(l2 + Joining(x, joined), Asking(asked), h);
    if x == h {
      Concerned(log, [Subscribed(x)], h);
      Concerned(l1, Granting(x, granted), h);
      Concerned(l2, Joining(x, joined), h);
      AllPieces(About(log, h), [Subscribed(x)], Granting(x, granted), Joining(x, joined));
    } else {
      NotConcerned(log, [Subscribed(x)], h);
      NotConcerned(l1, Granting(x, granted), h);
      NotConcerned(l2, Joining(x, joined), h);
      Unit(About(log, h));
    }
  }

  /** An entry, or none, that concerns the handle. */
  lemma Concerned(log: seq<Entry>, more: seq<Entry>, h: int)
    requires |more| <= 1 && (more != [] ==> Concerns(more[0], h))
    ensures About(log + more, h) == About(log, h) + more
  {
    PartsPlus(log, more, h);
  }

  lemma NotConcerned(log: seq<Entry>, more: seq<Entry>, h: int)
    requires |more| <= 1 && (more != [] ==> !Concerns(more[0], h))
    ensures About(log + more, h) == About(log, h)
  {
    PartsPlus(log, more, h);
    Unit(About(log, h));
  }

  lemma NoDealing(log: seq<Entry>, more: seq<Entry>)
    requires |more| <= 1 && (more != [] ==> !WithFramework(more[0]))
    ensures Dealings(log + more) == Dealings(log)
  {
    PartsPlus(log, more, 0);
    Unit(Dealings(log));
  }

  lemma PiecesDealings(log: seq<Entry>, x: int, granted: bool, joined: bool, asked: bool)
    ensures Dealings(log + [Subscribed(x)] + Granting(x, granted) + Joining(x, joined) + Asking(asked))
         == Dealings(log) + Asking(asked)
  {
    var l1 := log + [Subscribed(x)];
    var l2 := l1 + Granting(x, granted);
    NoDealing(log, [Subscribed(x)]);
    NoDealing(l1, Granting(x, granted));
    NoDealing(l2, Joining(x, joined));
    PartsPlus(l2 + Joining(x, joined), Asking(asked), x);
  }

  /** One entry, or none. */
  lemma PartsPlus(log: seq<Entry>, more: seq<Entry>, h: int)
    requires |more| <= 1
    ensures About(log + more, h) == About(log, h) + if more != [] && Concerns(more[0], h) then more else []
    ensures Dealings(log + more) == Dealings(log) + if more != [] && WithFramework(more[0]) then more else []
  {
    if more == [] {
      Unit(log);
      Unit(About(log, h));
      Unit(Dealings(log));
    } else {
      assert more == [more[0]];
      PartsSnoc(log, more[0], h);
    }
  }

  lemma AllPieces<T>(a: seq<T>, b: seq<T>, c: seq<T>, d: seq<T>)
    ensures a + b + c + d == a + (b + c + d)
    ensures a + [] + [] + [] == a + [] == a
  {
  }

  lemma SubscribeShows(m: Machine, s: Subscriber, kind: AgpsType, v: View, h: int)
    requires Shows(m.mSubscriberList, h, v) && s.mWaitForCloseComplete == kind.SuplEs? && !s.mIsInactive
    ensures Shows(Subscribe(m, s).mSubscriberList, h, ViewNext(v, m.mState, Sub(s.mConnHandle, kind), h))
  {
    SubscribeIs(m, s);
    if !Has(m.mSubscriberList, s.mConnHandle) {
      AddShows(m.mSubscriberList, s, kind, h, v);
    }
  }

  lemma SubscribeMoves(m: Machine, s: Subscriber, kind: AgpsType)
    ensures Moves(m, Subscribe(m, s), Sub(s.mConnHandle, kind))
  {
    SubscribeLogIs(m, s);
    PiecesDealings(m.log, s.mConnHandle, m.mState.Acquired?, !Has(m.mSubscriberList, s.mConnHandle),
                   m.mState.Released?);
    SubscribeIs(m, s);
    Unit(Asking(m.mState.Released?));
  }

  lemma SubscribeSays(m: Machine, s: Subscriber, kind: AgpsType, v: View, h: int)
    requires s.mConnHandle == h ==> (v.Out? <==> !Has(m.mSubscriberList, h))
    ensures About(Subscribe(m, s).log, h) == About(m.log, h) + Said(v, m.mState, Sub(s.mConnHandle, kind), h)
  {
    SubscribeLogIs(m, s);
    PiecesAbout(m.log, s.mConnHandle, m.mState.Acquired?, !Has(m.mSubscriberList, s.mConnHandle), m.mState.Released?,
                h);
  }

  lemma SubscribeFollows(m: Machine, s: Subscriber, kind: AgpsType, v: View, h: int)
    requires Shows(m.mSubscriberList, h, v) && s.mWaitForCloseComplete == kind.SuplEs? && !s.mIsInactive
    ensures Follows(m, Subscribe(m, s), Sub(s.mConnHandle, kind), v, h)
    ensures Moves(m, Subscribe(m, s), Sub(s.mConnHandle, kind))
  {
    SubscribeSays(m, s, kind, v, h);
    SubscribeShows(m, s, kind, v, h);
    SubscribeMoves(m, s, kind);
  }

  lemma LeaveShows(m: Machine, i: nat, v: View, h: int)
    requires ListLaw(m) && i < |m.mSubscriberList| && Shows(m.mSubscriberList, h, v)
    ensures var x := m.mSubscriberList[i].mConnHandle;
            && Shows(Leave(m, i).mSubscriberList, h, ViewNext(v, m.mState, Unsub(x), h))
            && About(Leave(m, i).log, h) == About(m.log, h) + Said(v, m.mState, Unsub(x), h)
            && Dealings(Leave(m, i).log) == Dealings(m.log) && Leave(m, i).mState == m.mState
  {
    var list, s := m.mSubscriberList, m.mSubscriberList[i];
    assert s in list && Has(list, s.mConnHandle);
    if s.mConnHandle == h {
      var t :| t in list && Matches(t, h, v);
      OneOf(list, s, t);
    }
    if s.mWaitForCloseComplete {
      InactiveShows(list, i, v, h);
    } else {
      PartsSnoc(m.log, CloseStatus(s.mConnHandle), h);
      WithoutIs(list, s.mConnHandle);
    }
  }

  lemma InactiveShows(list: seq<Subscriber>, i: nat, v: View, h: int)
    requires DistinctHandles(list) && i < |list| && Shows(list, h, v)
    ensures Shows(list[i := list[i].(mIsInactive := true)], h,
                  if list[i].mConnHandle == h then v.(leaving := true) else v)
  {
    var list' := list[i := list[i].(mIsInactive := true)];
    assert list[i] in list && list'[i] in list';
    if v.In? {
      var t :| t in list && Matches(t, h, v);
      var j :| 0 <= j < |list| && list[j] == t;
      assert list'[j] in list';
    } else {
      forall y | y in list' ensures y.mConnHandle != h {
        var j :| 0 <= j < |list'| && list'[j] == y;
        assert list[j] in list && list[j].mConnHandle == y.mConnHandle;
      }
    }
  }

  function GivingUp(yes: bool): seq<Entry> { if yes then [ReleaseConn] else [] }

  /** Whether an unsubscribe gives up the connection. */
  predicate GivesUp(m: Machine, l: Machine) {
    Wanted(m.mState) && !AnyActive(l.mSubscriberList)
  }

  lemma UnsubscribeIs(m: Machine, i: nat)
    requires !m.mState.Released? && i < |m.mSubscriberList|
    ensures var l, u := Leave(m, i), Unsubscribe(m, i);
            && u.mSubscriberList == l.mSubscriberList
            && u.log == l.log + GivingUp(GivesUp(m, l))
            && u.mState == StateNext(m.mState, Unsub(m.mSubscriberList[i].mConnHandle), l.mSubscriberList != [],
                                     AnyActive(l.mSubscriberList))
  {
    Unit(Leave(m, i).log);
  }

  /** An unsubscribe is only ever dealt with by a release, when the connection is wanted no more. */
  lemma DealtUnsub(state: AgpsState, x: int, someone: bool, active: bool)
    requires active ==> someone
    ensures var e := Unsub(x);
            Dealt(state, e, StateNext(state, e, someone, active)) == GivingUp(Wanted(state) && !active)
  {
    Unit(GivingUp(Wanted(state) && !active));
    Unit<Entry>([]);
  }

  lemma UnsubscribeDeals(m: Machine, i: nat)
    requires !m.mState.Released? && i < |m.mSubscriberList|
    requires Dealings(Leave(m, i).log) == Dealings(m.log)
    ensures Dealings(Unsubscribe(m, i).log) == Dealings(m.log) + GivingUp(GivesUp(m, Leave(m, i)))
  {
    var l := Leave(m, i);
    UnsubscribeIs(m, i);
    PartsPlus(l.log, GivingUp(GivesUp(m, l)), 0);
  }

  lemma UnsubscribeMoves(m: Machine, i: nat)
    requires !m.mState.Released? && i < |m.mSubscriberList|
    requires Dealings(Leave(m, i).log) == Dealings(m.log)
    ensures Moves(m, Unsubscribe(m, i), Unsub(m.mSubscriberList[i].mConnHandle))
  {
    var list := Leave(m, i).mSubscriberList;
    UnsubscribeIs(m, i);
    UnsubscribeDeals(m, i);
    DealtUnsub(m.mState, m.mSubscriberList[i].mConnHandle, list != [], AnyActive(list));
  }

  lemma UnsubscribeSays(m: Machine, i: nat, h: int)
    requires !m.mState.Released? && i < |m.mSubscriberList|
    ensures About(Unsubscribe(m, i).log, h) == About(Leave(m, i).log, h)
  {
    var l := Leave(m, i);
    UnsubscribeIs(m, i);
    NotConcerned(l.log, GivingUp(GivesUp(m, l)), h);
  }

  lemma UnsubscribeFollows(m: Machine, i: nat, v: View, h: int)
    requires ListLaw(m) && i < |m.mSubscriberList| && Shows(m.mSubscriberList, h, v)
    ensures Follows(m, Unsubscribe(m, i), Unsub(m.mSubscriberList[i].mConnHandle), v, h)
    ensures Moves(m, Unsubscribe(m, i), Unsub(m.mSubscriberList[i].mConnHandle))
  {
    LeaveShows(m, i, v, h);
    UnsubscribeIs(m, i);
    UnsubscribeSays(m, i, h);
    UnsubscribeMoves(m, i);
  }

  /** Who is told is who is in, and active or inactive as addressed. */
  lemma ToldIs(list: seq<Subscriber>, who: Audience, v: View, h: int)
    requires DistinctHandles(list) && Shows(list, h, v)
    ensures Told(list, who, h) <==> v.In? && (who.All? || (who.Inactive? && v.leaving) || (who.Active? && !v.leaving))
    ensures Shows(Unaddressed(list, who), h, if Told(list, who, h) then Out else v)
  {
    UnaddressedIs(list, who);
    if v.In? {
      var t :| t in list && Matches(t, h, v);
      forall s | s in list && s.mConnHandle == h ensures s == t {
        OneOf(list, s, t);
      }
    }
  }

  lemma InputIs(log: seq<Entry>, e: Entry, h: int)
    requires e.Granted? || e.Denied? || e.ReleasedByPeer?
    ensures About(log + [e], h) == About(log, h) && Dealings(log + [e]) == Dealings(log) + [e]
  {
    PartsSnoc(log, e, h);
    Unit(About(log, h));
  }

  lemma GrantedFollows(m: Machine, v: View, h: int)
    requires DistinctHandles(m.mSubscriberList) && Shows(m.mSubscriberList, h, v)
    ensures Follows(m, OnGranted(m), Grant, v, h)
  {
    InputIs(m.log, Granted, h);
    NoticesAre(m.log + [Granted], m.mSubscriberList, NoticeGranted, Active, h);
    ToldIs(m.mSubscriberList, Active, v, h);
    Unit(About(m.log, h));
  }

  lemma GrantedMoves(m: Machine)
    requires DistinctHandles(m.mSubscriberList)
    ensures Moves(m, OnGranted(m), Grant)
  {
    InputIs(m.log, Granted, 0);
    NoticesAre(m.log + [Granted], m.mSubscriberList, NoticeGranted, Active, 0);
    Unit([Granted]);
  }

  /** Closing notices to an audience that then leaves. */
  lemma LeaversAre(m: Machine, n: Notice, who: Audience, v: View, h: int)
    requires DistinctHandles(m.mSubscriberList) && Shows(m.mSubscriberList, h, v)
    ensures var r, told := NotifyAll(m, n, true, who), v.In? && (who.All? || v.leaving == who.Inactive?);
            && About(r.log, h) == About(m.log, h) + (if told then [StatusOf(n, h)] else [])
            && Shows(r.mSubscriberList, h, if told then Out else v) && Dealings(r.log) == Dealings(m.log)
  {
    NoticesAre(m.log, m.mSubscriberList, n, who, h);
    ToldIs(m.mSubscriberList, who, v, h);
  }

  /** The end of RELEASING. */
  lemma FinishIs(m: Machine)
    ensures var f, r := FinishReleasing(m), NotifyAll(m, NoticeClosed, true, Inactive);
            && f.mSubscriberList == r.mSubscriberList
            && f.mState == (if AnyActive(r.mSubscriberList) then Pending else Released)
            && f.log == r.log + Asking(f.mState.Pending?)
  {
    Unit(NotifyAll(m, NoticeClosed, true, Inactive).log);
  }

  lemma FinishSays(m: Machine, v: View, h: int)
    requires DistinctHandles(m.mSubscriberList) && Shows(m.mSubscriberList, h, v)
    ensures var f, leaves := FinishReleasing(m), v.In? && v.leaving;
            && About(f.log, h) == About(m.log, h) + (if leaves then [CloseStatus(h)] else [])
            && Shows(f.mSubscriberList, h, if leaves then Out else v)
  {
    FinishIs(m);
    LeaversAre(m, NoticeClosed, Inactive, v, h);
    NotConcerned(NotifyAll(m, NoticeClosed, true, Inactive).log, Asking(FinishReleasing(m).mState.Pending?), h);
  }

  lemma FinishDeals(m: Machine)
    requires DistinctHandles(m.mSubscriberList)
    ensures Dealings(FinishReleasing(m).log) == Dealings(m.log) + Asking(FinishReleasing(m).mState.Pending?)
  {
    FinishIs(m);
    NoticesAre(m.log, m.mSubscriberList, NoticeClosed, Inactive, 0);
    PartsPlus(NotifyAll(m, NoticeClosed, true, Inactive).log, Asking(FinishReleasing(m).mState.Pending?), 0);
  }

  /** A RELEASED or DENIED event that ends RELEASING. */
  predicate EndsWith(m: Machine, input: Entry, e: Event) {
    m.mState.Releasing? && ((input == ReleasedByPeer && e == Close) || (input == Denied && e == Deny))
  }

  lemma EndFollows(m: Machine, input: Entry, e: Event, v: View, h: int)
    requires DistinctHandles(m.mSubscriberList) && Shows(m.mSubscriberList, h, v) && EndsWith(m, input, e)
    ensures Follows(m, FinishReleasing(Say(m, input)), e, v, h)
  {
    InputIs(m.log, input, h);
    FinishSays(Say(m, input), v, h);
  }

  lemma EndMoves(m: Machine, input: Entry, e: Event)
    requires DistinctHandles(m.mSubscriberList) && EndsWith(m, input, e)
    ensures Moves(m, FinishReleasing(Say(m, input)), e)
  {
    var m1 := Say(m, input);
    var asked := Asking(FinishReleasing(m1).mState.Pending?);
    InputIs(m.log, input, 0);
    FinishIs(m1);
    FinishDeals(m1);
    Assoc(Dealings(m.log), [input], asked);
    Unit([input] + asked);
  }

  /** A RELEASED event in ACQUIRED or a DENIED one in PENDING. */
  lemma AllLeave(m: Machine, input: Entry, n: Notice, e: Event, v: View, h: int)
    requires DistinctHandles(m.mSubscriberList) && Shows(m.mSubscriberList, h, v)
    requires || (input == ReleasedByPeer && e == Close && n == NoticeClosed && m.mState.Acquired?)
             || (input == Denied && e == Deny && n == NoticeDenied && m.mState.Pending?)
    ensures Follows(m, NotifyAll(Say(m, input).(mState := Released), n, true, All), e, v, h)
    ensures Moves(m, NotifyAll(Say(m, input).(mState := Released), n, true, All), e)
  {
    InputIs(m.log, input, h);
    LeaversAre(Say(m, input).(mState := Released), n, All, v, h);
    Unit([input]);
  }

  /** An event the state has no use for. */
  lemma IgnoredFollows(m: Machine, input: Entry, e: Event, v: View, h: int)
    requires Shows(m.mSubscriberList, h, v)
    requires || (input == ReleasedByPeer && e == Close && !m.mState.Acquired? && !m.mState.Releasing?)
             || (input == Denied && e == Deny && !m.mState.Pending? && !m.mState.Releasing?)
    ensures Follows(m, Say(m, input), e, v, h) && Moves(m, Say(m, input), e)
  {
    InputIs(m.log, input, h);
    Unit(About(m.log, h));
    Unit([input]);
  }

  lemma ReleasedFollows(m: Machine, v: View, h: int)
    requires DistinctHandles(m.mSubscriberList) && Shows(m.mSubscriberList, h, v)
    ensures Follows(m, OnReleased(m), Close, v, h) && Moves(m, OnReleased(m), Close)
  {
    match m.mState
    case Acquired => AllLeave(m, ReleasedByPeer, NoticeClosed, Close, v, h);
    case Releasing =>
      EndFollows(m, ReleasedByPeer, Close, v, h);
      EndMoves(m, ReleasedByPeer, Close);
    case _ => IgnoredFollows(m, ReleasedByPeer, Close, v, h);
  }

  lemma DeniedFollows(m: Machine, v: View, h: int)
    requires DistinctHandles(m.mSubscriberList) && Shows(m.mSubscriberList, h, v)
    ensures Follows(m, OnDenied(m), Deny, v, h) && Moves(m, OnDenied(m), Deny)
  {
    match m.mState
    case Pending => AllLeave(m, Denied, NoticeDenied, Deny, v, h);
    case Releasing =>
      EndFollows(m, Denied, Deny, v, h);
      EndMoves(m, Denied, Deny);
    case _ => IgnoredFollows(m, Denied, Deny, v, h);
  }

  lemma DropFollows(m: Machine, v: View, h: int)
    requires DistinctHandles(m.mSubscriberList) && Shows(m.mSubscriberList, h, v)
    ensures Follows(m, DropAll(m), Reset, v, h) && Moves(m, DropAll(m), Reset)
  {
    DropsAre(m.log, m.mSubscriberList, h);
    ToldIs(m.mSubscriberList, All, v, h);
    Unit(Dealings(m.log));
  }

  // ---------- Runs ----------

  /** The machine of the internet connection, or else of AGNSS. */
  function MachineAt(g: Manager, internet: bool): Option<Machine> {
    if internet then Some(g.internet) else g.agnss
  }

  /**
   Which event an action is for a machine, after a run: a request and a report go by type;
   a release goes to the AGNSS machine if the handle is in there, and else to the other.
   */
  function EventFor(agpsCapable: bool, actions: seq<Action>, a: Action, internet: bool): Option<Event>
    decreases |actions|, 1
  {
    match a
    case RequestATL(h, t) => if t.WwanAny? == internet then Some(Sub(h, t)) else None
    case ReleaseATL(h) =>
      if ViewOf(agpsCapable, actions, internet, h).In?
         && (internet ==> ViewOf(agpsCapable, actions, false, h).Out?) then Some(Unsub(h)) else None
    case OpenSuccess(t) => if t.WwanAny? == internet then Some(Grant) else None
    case OpenFailed(t) => if t.WwanAny? == internet then Some(Deny) else None
    case ConnClosed(t) => if t.WwanAny? == internet then Some(Close) else None
    case ModemSSR => Some(Reset)
  }

  /** How a handle stands with a machine after a run; with no machine it is out. */
  function ViewOf(agpsCapable: bool, actions: seq<Action>, internet: bool, h: int): View
    decreases |actions|, 0
  {
    if actions == [] then Out
    else
      var front, a := actions[..|actions| - 1], actions[|actions| - 1];
      var v, m := ViewOf(agpsCapable, front, internet, h), MachineAt(Run(agpsCapable, front), internet);
      match EventFor(agpsCapable, front, a, internet)
      case None => v
      case Some(e) => if m.None? then v else ViewNext(v, m.value.mState, e, h)
  }

  /** After a run, the action brings this event to the machine, for this handle. */
  ghost predicate Brings(agpsCapable: bool, actions: seq<Action>, a: Action, internet: bool, h: int) {
    var g := Run(agpsCapable, actions);
    var m, m' := MachineAt(g, internet), MachineAt(Next(g, a), internet);
    && (m'.Some? <==> m.Some?)
    && (m.Some? ==>
          match EventFor(agpsCapable, actions, a, internet)
          case None => m' == m
          case Some(e) =>
            && Follows(m.value, m'.value, e, ViewOf(agpsCapable, actions, internet, h), h)
            && Moves(m.value, m'.value, e))
  }

  ghost predicate ShowsIn(g: Manager, internet: bool, h: int, v: View) {
    match MachineAt(g, internet)
    case None => v == Out
    case Some(m) => Shows(m.mSubscriberList, h, v)
  }

  lemma RunsHaveLists(agpsCapable: bool, actions: seq<Action>, internet: bool)
    ensures var m := MachineAt(Run(agpsCapable, actions), internet); m.Some? ==> ListLaw(m.value)
  {
    RunsAreLawful(agpsCapable, actions, 0);
  }

  lemma RequestBrings(agpsCapable: bool, actions: seq<Action>, x: int, t: AgpsType, internet: bool, h: int)
    requires ShowsIn(Run(agpsCapable, actions), internet, h, ViewOf(agpsCapable, actions, internet, h))
    ensures Brings(agpsCapable, actions, RequestATL(x, t), internet, h)
  {
    var g := Run(agpsCapable, actions);
    RunsHaveLists(agpsCapable, actions, internet);
    if t.WwanAny? == internet && HasMachine(g, t) {
      var v := ViewOf(agpsCapable, actions, internet, h);
      SubscribeFollows(MachineOf(g, t), Subscriber(x, t.SuplEs?, false), t, v, h);
    }
  }

  lemma FindIs(list: seq<Subscriber>, x: int)
    ensures Find(list, x).Some? <==> Has(list, x)
    ensures Find(list, x).Some? ==> Find(list, x).value < |list| && list[Find(list, x).value].mConnHandle == x
  {
    FindFinds(list, x);
  }

  lemma ReleaseBrings(agpsCapable: bool, actions: seq<Action>, x: int, internet: bool, h: int)
    requires forall y, i :: ShowsIn(Run(agpsCapable, actions), i, y, ViewOf(agpsCapable, actions, i, y))
    ensures Brings(agpsCapable, actions, ReleaseATL(x), internet, h)
  {
    var g := Run(agpsCapable, actions);
    RunsHaveLists(agpsCapable, actions, internet);
    var v := ViewOf(agpsCapable, actions, internet, h);
    assert ShowsIn(g, internet, h, v);
    assert ShowsIn(g, false, x, ViewOf(agpsCapable, actions, false, x));
    assert ShowsIn(g, true, x, ViewOf(agpsCapable, actions, true, x));
    FindIs(if g.agnss.Some? then g.agnss.value.mSubscriberList else [], x);
    FindIs(g.internet.mSubscriberList, x);
    if EventFor(agpsCapable, actions, ReleaseATL(x), internet).Some? && MachineAt(g, internet).Some? {
      var m := MachineAt(g, internet).value;
      UnsubscribeFollows(m, Find(m.mSubscriberList, x).value, v, h);
    }
  }

  /** What an event that is no handle's makes of a machine. */
  function After(m: Machine, e: Event): Machine
    requires !e.Sub? && !e.Unsub?
  {
    match e
    case Grant => OnGranted(m)
    case Deny => OnDenied(m)
    case Close => OnReleased(m)
    case Reset => DropAll(m)
  }

  function ReportOf(a: Action): Event
    requires a.OpenSuccess? || a.OpenFailed? || a.ConnClosed? || a.ModemSSR?
  {
    match a
    case OpenSuccess(_) => Grant
    case OpenFailed(_) => Deny
    case ConnClosed(_) => Close
    case ModemSSR => Reset
  }

  /** What a report or an SSR makes of one machine. */
  lemma ReportIs(g: Manager, a: Action, internet: bool)
    requires (a.OpenSuccess? || a.OpenFailed? || a.ConnClosed? || a.ModemSSR?) && MachineAt(g, internet).Some?
    ensures var m := MachineAt(g, internet).value;
            MachineAt(Next(g, a), internet) == Some(
              if !a.ModemSSR? && a.agpsType.WwanAny? != internet then m else After(m, ReportOf(a)))
  {
  }

  lemma EventFollows(m: Machine, e: Event, v: View, h: int)
    requires DistinctHandles(m.mSubscriberList) && Shows(m.mSubscriberList, h, v) && !e.Sub? && !e.Unsub?
    ensures Follows(m, After(m, e), e, v, h) && Moves(m, After(m, e), e)
  {
    match e
    case Grant =>
      GrantedFollows(m, v, h);
      GrantedMoves(m);
    case Deny => DeniedFollows(m, v, h);
    case Close => ReleasedFollows(m, v, h);
    case Reset => DropFollows(m, v, h);
  }

  lemma ReportBrings(agpsCapable: bool, actions: seq<Action>, a: Action, internet: bool, h: int)
    requires a.OpenSuccess? || a.OpenFailed? || a.ConnClosed? || a.ModemSSR?
    requires ShowsIn(Run(agpsCapable, actions), internet, h, ViewOf(agpsCapable, actions, internet, h))
    ensures Brings(agpsCapable, actions, a, internet, h)
  {
    var g := Run(agpsCapable, actions);
    RunsHaveLists(agpsCapable, actions, internet);
    if MachineAt(g, internet).Some? {
      ReportIs(g, a, internet);
      var e := EventFor(agpsCapable, actions, a, internet);
      if e.Some? {
        EventFollows(MachineAt(g, internet).value, e.value, ViewOf(agpsCapable, actions, internet, h), h);
      }
    }
  }

  lemma ActionBrings(agpsCapable: bool, actions: seq<Action>, a: Action, internet: bool, h: int)
    requires forall y, i :: ShowsIn(Run(agpsCapable, actions), i, y, ViewOf(agpsCapable, actions, i, y))
    ensures Brings(agpsCapable, actions, a, internet, h)
  {
    assert ShowsIn(Run(agpsCapable, actions), internet, h, ViewOf(agpsCapable, actions, internet, h));
    match a
    case RequestATL(x, t) => RequestBrings(agpsCapable, actions, x, t, internet, h);
    case ReleaseATL(x) => ReleaseBrings(agpsCapable, actions, x, internet, h);
    case _ => ReportBrings(agpsCapable, actions, a, internet, h);
  }

  lemma BroughtShows(agpsCapable: bool, actions: seq<Action>, a: Action, internet: bool, h: int)
    requires Brings(agpsCapable, actions, a, internet, h)
    requires ShowsIn(Run(agpsCapable, actions), internet, h, ViewOf(agpsCapable, actions, internet, h))
    ensures ShowsIn(Next(Run(agpsCapable, actions), a), internet, h, ViewOf(agpsCapable, actions + [a], internet, h))
  {
    var all := actions + [a];
    assert all[..|all| - 1] == actions && all[|all| - 1] == a;
  }

  lemma {:induction false} RunsShow(agpsCapable: bool, actions: seq<Action>)
    ensures forall h, i :: ShowsIn(Run(agpsCapable, actions), i, h, ViewOf(agpsCapable, actions, i, h))
  {
    if actions != [] {
      var front, a := actions[..|actions| - 1], actions[|actions| - 1];
      RunsShow(agpsCapable, front);
      forall h, i ensures ShowsIn(Run(agpsCapable, actions), i, h, ViewOf(agpsCapable, actions, i, h)) {
        ActionBrings(agpsCapable, front, a, i, h);
        BroughtShows(agpsCapable, front, a, i, h);
        assert actions == front + [a];
      }
    }
  }

  /**
   After every run, whatever happens next: each machine gets the event its type and its
   handles call for and no other; each handle is told what its own view says and no more;
   and the machine's state and its dealings with the framework follow.
   */
  lemma HandlesDecide(agpsCapable: bool, actions: seq<Action>, a: Action, internet: bool, h: int)
    ensures Brings(agpsCapable, actions, a, internet, h)
    ensures ShowsIn(Run(agpsCapable, actions), internet, h, ViewOf(agpsCapable, actions, internet, h))
  {
    RunsShow(agpsCapable, actions);
    ActionBrings(agpsCapable, actions, a, internet, h);
  }

  lemma MemberIsIn(list: seq<Subscriber>, s: Subscriber, v: View)
    requires DistinctHandles(list) && s in list && Shows(list, s.mConnHandle, v)
    ensures v.In? && v.leaving == s.mIsInactive
  {
    assert Has(list, s.mConnHandle);
    var t :| t in list && t.mConnHandle == s.mConnHandle && t.mIsInactive == v.leaving;
    OneOf(list, s, t);
  }

  lemma InIsMember(list: seq<Subscriber>, h: int, v: View)
    requires Shows(list, h, v) && v.In?
    ensures exists s :: s in list && s.mIsInactive == v.leaving
  {
  }

  ghost predicate Someone(agpsCapable: bool, actions: seq<Action>, internet: bool) {
    exists h :: ViewOf(agpsCapable, actions, internet, h).In?
  }

  ghost predicate SomeoneActive(agpsCapable: bool, actions: seq<Action>, internet: bool) {
    exists h :: ViewOf(agpsCapable, actions, internet, h).In? && !ViewOf(agpsCapable, actions, internet, h).leaving
  }

  lemma MemberSees(agpsCapable: bool, actions: seq<Action>, internet: bool, list: seq<Subscriber>, s: Subscriber)
    requires MachineAt(Run(agpsCapable, actions), internet).Some? && s in list
    requires list == MachineAt(Run(agpsCapable, actions), internet).value.mSubscriberList
    ensures var v := ViewOf(agpsCapable, actions, internet, s.mConnHandle); v.In? && v.leaving == s.mIsInactive
  {
    RunShows(agpsCapable, actions, internet, s.mConnHandle);
    RunsHaveLists(agpsCapable, actions, internet);
    MemberIsIn(list, s, ViewOf(agpsCapable, actions, internet, s.mConnHandle));
  }

  /** Whether anyone is in a machine's list, or active there, is what the handles' views say. */
  lemma ListIsViews(agpsCapable: bool, actions: seq<Action>, internet: bool)
    requires MachineAt(Run(agpsCapable, actions), internet).Some?
    ensures var list := MachineAt(Run(agpsCapable, actions), internet).value.mSubscriberList;
            && (list != [] <==> Someone(agpsCapable, actions, internet))
            && (AnyActive(list) <==> SomeoneActive(agpsCapable, actions, internet))
  {
    var list := MachineAt(Run(agpsCapable, actions), internet).value.mSubscriberList;
    if list != [] {
      MemberSees(agpsCapable, actions, internet, list, list[0]);
    }
    if s :| s in list && !s.mIsInactive {
      MemberSees(agpsCapable, actions, internet, list, s);
    }
    if h :| ViewOf(agpsCapable, actions, internet, h).In? {
      RunShows(agpsCapable, actions, internet, h);
      InIsMember(list, h, ViewOf(agpsCapable, actions, internet, h));
    }
    if h :| ViewOf(agpsCapable, actions, internet, h).In? && !ViewOf(agpsCapable, actions, internet, h).leaving {
      RunShows(agpsCapable, actions, internet, h);
      InIsMember(list, h, ViewOf(agpsCapable, actions, internet, h));
    }
  }

  lemma RunShows(agpsCapable: bool, actions: seq<Action>, internet: bool, h: int)
    ensures ShowsIn(Run(agpsCapable, actions), internet, h, ViewOf(agpsCapable, actions, internet, h))
  {
    RunsShow(agpsCapable, actions);
  }

  /** After a run, a handle is in one machine or the other. */
  predicate IsIn(agpsCapable: bool, actions: seq<Action>, h: int) {
    ViewOf(agpsCapable, actions, false, h).In? || ViewOf(agpsCapable, actions, true, h).In?
  }

  function Refusals(agpsCapable: bool, actions: seq<Action>, a: Action): seq<Refusal> {
    match a
    case RequestATL(h, t) => if t.WwanAny? || agpsCapable then [] else [NoMachine(h)]
    case ReleaseATL(h) => if IsIn(agpsCapable, actions, h) then [] else [UnknownHandle(h)]
    case _ => []
  }

  /** A request is refused exactly for want of a machine, and a release exactly of a handle that is in neither. */
  lemma RefusalsAre(agpsCapable: bool, actions: seq<Action>, a: Action)
    ensures var g := Run(agpsCapable, actions);
            Next(g, a).refused == g.refused + Refusals(agpsCapable, actions, a)
  {
    var g := Run(agpsCapable, actions);
    CapableHas(agpsCapable, actions);
    Unit(g.refused);
    match a
    case ReleaseATL(h) => ReleaseRefused(agpsCapable, actions, h);
    case _ =>
  }

  lemma ReleaseRefused(agpsCapable: bool, actions: seq<Action>, h: int)
    ensures var g := Run(agpsCapable, actions);
            Release(g, h).refused == g.refused + (if IsIn(agpsCapable, actions, h) then [] else [UnknownHandle(h)])
  {
    var g := Run(agpsCapable, actions);
    Unit(g.refused);
    RunShows(agpsCapable, actions, false, h);
    RunShows(agpsCapable, actions, true, h);
    FindIs(if g.agnss.Some? then g.agnss.value.mSubscriberList else [], h);
    FindIs(g.internet.mSubscriberList, h);
  }

  lemma NextHas(g: Manager, a: Action)
    ensures Next(g, a).agnss.Some? <==> g.agnss.Some?
  {
  }

  lemma {:induction false} CapableHas(agpsCapable: bool, actions: seq<Action>)
    ensures Run(agpsCapable, actions).agnss.Some? <==> agpsCapable
  {
    if actions != [] {
      CapableHas(agpsCapable, actions[..|actions| - 1]);
      NextHas(Run(agpsCapable, actions[..|actions| - 1]), actions[|actions| - 1]);
    }
  }

  /**
   So a release is answered there and then, unless the membership began with an emergency
   request: that one stays, asked to leave, without an answer.
   */
  lemma ReleaseIsAnswered(agpsCapable: bool, actions: seq<Action>, internet: bool, h: int)
    requires ViewOf(agpsCapable, actions, internet, h).In?
    requires internet ==> ViewOf(agpsCapable, actions, false, h).Out?
    ensures var v, more := ViewOf(agpsCapable, actions, internet, h), actions + [ReleaseATL(h)];
            var m, m' := MachineAt(Run(agpsCapable, actions), internet), MachineAt(Run(agpsCapable, more), internet);
            && m.Some? && m'.Some?
            && (if v.kind.SuplEs?
                then ViewOf(agpsCapable, more, internet, h) == In(SuplEs, true)
                     && About(m'.value.log, h) == About(m.value.log, h)
                else ViewOf(agpsCapable, more, internet, h) == Out
                     && About(m'.value.log, h) == About(m.value.log, h) + [CloseStatus(h)])
  {
    var more := actions + [ReleaseATL(h)];
    assert more[..|more| - 1] == actions && more[|more| - 1] == ReleaseATL(h);
    HandlesDecide(agpsCapable, actions, ReleaseATL(h), internet, h);
    Unit(About(MachineAt(Run(agpsCapable, actions), internet).value.log, h));
  }

  lemma CloseIsSaid(v: View, state: AgpsState, e: Event, h: int)
    requires Waits(v)
    ensures Said(v, state, e, h) == [CloseStatus(h)] <==>
              || (e.Close? && (state.Acquired? || (state.Releasing? && v.leaving)))
              || (e.Deny? && state.Releasing? && v.leaving)
  {
    match e
    case Sub(x, _) => assert x == h ==> Said(v, state, e, h)[0] == Subscribed(h);
    case _ =>
  }

  lemma SameTail<T>(s: seq<T>, t: seq<T>, u: seq<T>)
    ensures s + t == s + u <==> t == u
  {
    assert (s + t)[|s|..] == t && (s + u)[|s|..] == u;
  }

  /**
   An emergency member is told of a close only by the peer's release, in ACQUIRED or, once
   it has asked to leave, in RELEASING; or by a denial there.
   */
  lemma EmergencyWaits(agpsCapable: bool, actions: seq<Action>, a: Action, internet: bool, h: int)
    requires Waits(ViewOf(agpsCapable, actions, internet, h))
    ensures var v, g := ViewOf(agpsCapable, actions, internet, h), Run(agpsCapable, actions);
            var m, m' := MachineAt(g, internet), MachineAt(Next(g, a), internet);
            && m.Some? && m'.Some?
            && (About(m'.value.log, h) == About(m.value.log, h) + [CloseStatus(h)] <==>
                  || (a.ConnClosed? && a.agpsType.WwanAny? == internet
                      && (m.value.mState.Acquired? || (m.value.mState.Releasing? && v.leaving)))
                  || (a.OpenFailed? && a.agpsType.WwanAny? == internet && m.value.mState.Releasing? && v.leaving))
  {
    HandlesDecide(agpsCapable, actions, a, internet, h);
    var v, m := ViewOf(agpsCapable, actions, internet, h), MachineAt(Run(agpsCapable, actions), internet).value;
    match EventFor(agpsCapable, actions, a, internet)
    case None =>
      Unit(About(m.log, h));
      SameTail(About(m.log, h), [], [CloseStatus(h)]);
    case Some(e) =>
      SameTail(About(m.log, h), Said(v, m.mState, e, h), [CloseStatus(h)]);
      CloseIsSaid(v, m.mState, e, h);
  }
}
