/**
 The AGPS state machine as it is built: a state and a subscriber list changed in place,
 with loops that erase from the list while they walk it. Every method is proved to
 compute its function in AgpsSpec.
 */
module Agps {
  import opened Options
  import opened AgpsSpec
  import Spec = AgpsManagerSpec

  function Kept(list: seq<Subscriber>, who: Audience, delete: bool): seq<Subscriber> {
    if delete then Unaddressed(list, who) else list
  }

  lemma KeptSnoc(all: seq<Subscriber>, k: nat, who: Audience, delete: bool)
    requires k < |all|
    ensures Kept(all[..k + 1], who, delete)
         == Kept(all[..k], who, delete) + if delete && Addressed(all[k], who) then [] else [all[k]]
  {
    assert all[..k + 1][..k] == all[..k] && all[..k + 1][k] == all[k];
  }

  lemma NoticesSnoc(all: seq<Subscriber>, k: nat, n: Notice, who: Audience)
    requires k < |all|
    ensures Notices(all[..k + 1], n, who)
         == Notices(all[..k], n, who) + if Addressed(all[k], who) then [StatusOf(n, all[k].mConnHandle)] else []
  {
    assert all[..k + 1][..k] == all[..k] && all[..k + 1][k] == all[k];
  }

  lemma SaidMore(start: seq<Entry>, said: seq<Entry>, now: seq<Entry>, all: seq<Subscriber>, k: nat, n: Notice,
                 who: Audience)
    requires k < |all| && said == start + Notices(all[..k], n, who)
    requires now == said + if Addressed(all[k], who) then [StatusOf(n, all[k].mConnHandle)] else []
    ensures now == start + Notices(all[..k + 1], n, who)
  {
    NoticesSnoc(all, k, n, who);
  }

  class AgpsStateMachine {
    var mState: AgpsState
    var mSubscriberList: seq<Subscriber>
    var log: seq<Entry>   // the callbacks made and the events received

    ghost function Value(): Machine
      reads this
    {
      Machine(mState, mSubscriberList, log)
    }

    constructor ()
      ensures Value() == NEW_MACHINE
    {
      mState, mSubscriberList, log := Released, [], [];
    }

    method AddSubscriber(s: Subscriber)
      modifies this
      ensures Value() == AgpsSpec.AddSubscriber(old(Value()), s)
    {
      var it := 0;
      while it < |mSubscriberList|
        invariant it <= |mSubscriberList|
        invariant Value() == old(Value())
        invariant forall i :: 0 <= i < it ==> mSubscriberList[i].mConnHandle != s.mConnHandle
      {
        if mSubscriberList[it].mConnHandle == s.mConnHandle {
          assert mSubscriberList[it] in mSubscriberList;
          return;
        }
        it := it + 1;
      }
      mSubscriberList := mSubscriberList + [s];
      log := log + [Joined(s.mConnHandle)];
    }

    method DeleteSubscriber(handle: int)
      modifies this`mSubscriberList
      ensures mSubscriberList == Without(old(mSubscriberList), handle)
    {
      var it := 0;
      ghost var all := mSubscriberList;
      ghost var k := 0;
      while it < |mSubscriberList|
        invariant it <= |mSubscriberList| && k <= |all|
        invariant mSubscriberList[..it] == Without(all[..k], handle)
        invariant mSubscriberList[it..] == all[k..]
        decreases |mSubscriberList| - it
      {
        assert all[..k + 1][..k] == all[..k] && all[..k + 1][k] == mSubscriberList[it];
        if mSubscriberList[it].mConnHandle == handle {
          mSubscriberList := mSubscriberList[..it] + mSubscriberList[it + 1..];
        } else {
          it := it + 1;
        }
        k := k + 1;
      }
      assert all[..k] == all;
    }

    method AnyActiveSubscribers() returns (any: bool)
      ensures any <==> AnyActive(mSubscriberList)
    {
      var it := 0;
      while it < |mSubscriberList|
        invariant it <= |mSubscriberList|
        invariant forall i :: 0 <= i < it ==> mSubscriberList[i].mIsInactive
      {
        if !mSubscriberList[it].mIsInactive {
          assert mSubscriberList[it] in mSubscriberList;
          return true;
        }
        it := it + 1;
      }
      return false;
    }

    method NotifyEventToSubscriber(n: Notice, handle: int, deleteSubscriberPostNotify: bool)
      modifies this
      ensures Value() == Say(old(Value()), StatusOf(n, handle)).(
        mSubscriberList := if deleteSubscriberPostNotify then Without(old(mSubscriberList), handle)
          else old(mSubscriberList))
    {
      log := log + [StatusOf(n, handle)];
      if deleteSubscriberPostNotify {
        DeleteSubscriber(handle);
      }
    }

    /** One round of notifyAllSubscribers: notifies the subscriber at it and erases it or moves past it. */
    method Visit(it: nat, n: Notice, deleteSubscriberPostNotify: bool, who: Audience) returns (next: nat)
      requires it < |mSubscriberList|
      modifies this
      ensures var s := old(mSubscriberList)[it];
              && mState == old(mState) && next <= |mSubscriberList|
              && |mSubscriberList| - next < |old(mSubscriberList)| - it
              && log == old(log) + (if Addressed(s, who) then [StatusOf(n, s.mConnHandle)] else [])
              && mSubscriberList[..next]
                 == old(mSubscriberList)[..it] + (if deleteSubscriberPostNotify && Addressed(s, who) then [] else [s])
              && mSubscriberList[next..] == old(mSubscriberList)[it + 1..]
    {
      var subscriber := mSubscriberList[it];
      next := it + 1;
      if Addressed(subscriber, who) {
        NotifyEventToSubscriber(n, subscriber.mConnHandle, false);
        if deleteSubscriberPostNotify {
          mSubscriberList := mSubscriberList[..it] + mSubscriberList[it + 1..];
          next := it;
        }
      }
    }

    method NotifyAllSubscribers(n: Notice, deleteSubscriberPostNotify: bool, who: Audience)
      modifies this
      ensures Value() == NotifyAll(old(Value()), n, deleteSubscriberPostNotify, who)
    {
      var it := 0;
      ghost var all := mSubscriberList;
      ghost var k := 0;
      while it < |mSubscriberList|
        invariant 0 <= it <= |mSubscriberList| && 0 <= k && |mSubscriberList| - it == |all| - k && mState == old(mState)
        invariant mSubscriberList[..it] == Kept(all[..k], who, deleteSubscriberPostNotify)
        invariant mSubscriberList[it..] == all[k..]
        invariant log == old(log) + Notices(all[..k], n, who)
        decreases |mSubscriberList| - it
      {
        KeptSnoc(all, k, who, deleteSubscriberPostNotify);
        ghost var list, said := mSubscriberList, log;
        assert list[it] == list[it..][0] == all[k] && list[it + 1..] == list[it..][1..] == all[k + 1..];
        it := Visit(it, n, deleteSubscriberPostNotify, who);
        SaidMore(old(log), said, log, all, k, n, who);
        k := k + 1;
      }
      assert all[..k] == all;
    }

    method DropAllSubscribers()
      modifies this
      ensures Value() == DropAll(old(Value()))
    {
      ghost var all := mSubscriberList;
      ghost var k := 0;
      while mSubscriberList != []
        invariant k <= |all| && mSubscriberList == all[k..]
        invariant log == old(log) + Drops(all[..k]) && mState == old(mState)
        decreases |mSubscriberList|
      {
        assert all[..k + 1][..k] == all[..k] && all[..k + 1][k] == mSubscriberList[0];
        log := log + [Dropped(mSubscriberList[0].mConnHandle)];
        mSubscriberList := mSubscriberList[1..];
        k := k + 1;
      }
      assert all[..k] == all;
    }

    method GetSubscriber(handle: int) returns (found: Option<nat>)
      ensures found == Spec.Find(mSubscriberList, handle)
    {
      var it := 0;
      assert mSubscriberList[0..] == mSubscriberList;
      while it < |mSubscriberList|
        invariant it <= |mSubscriberList|
        invariant Spec.Find(mSubscriberList, handle)
               == match Spec.Find(mSubscriberList[it..], handle)
                  case None => None
                  case Some(i) => Some(it + i)
      {
        if mSubscriberList[it].mConnHandle == handle {
          return Some(it);
        }
        it := it + 1;
      }
      return None;
    }

    method ProcessSubscribe(s: Subscriber)
      modifies this
      ensures Value() == Subscribe(old(Value()), s)
    {
      log := log + [Subscribed(s.mConnHandle)];
      match mState
      case Released =>
        AddSubscriber(s);
        log := log + [RequestConn];
        mState := Pending;
      case Pending =>
        AddSubscriber(s);
      case Acquired =>
        NotifyEventToSubscriber(NoticeGranted, s.mConnHandle, false);
        AddSubscriber(s);
      case Releasing =>
        AddSubscriber(s);
    }

    method LeaveList(i: nat)
      requires i < |mSubscriberList|
      modifies this
      ensures Value() == Leave(old(Value()), i)
    {
      if mSubscriberList[i].mWaitForCloseComplete {
        mSubscriberList := mSubscriberList[i := mSubscriberList[i].(mIsInactive := true)];
      } else {
        NotifyEventToSubscriber(NoticeClosed, mSubscriberList[i].mConnHandle, true);
      }
    }

    method ProcessUnsubscribe(i: nat)
      requires i < |mSubscriberList|
      modifies this
      ensures Value() == Unsubscribe(old(Value()), i)
    {
      match mState
      case Released =>
        NotifyEventToSubscriber(NoticeClosed, mSubscriberList[i].mConnHandle, false);
      case Releasing =>
        LeaveList(i);
        if mSubscriberList == [] {
          mState := Released;
        }
      case _ =>
        LeaveList(i);
        if mSubscriberList == [] {
          mState := Released;
          log := log + [ReleaseConn];
        } else {
          var anyActive := AnyActiveSubscribers();
          if !anyActive {
            mState := Releasing;
            log := log + [ReleaseConn];
          }
        }
    }

    method ProcessGranted()
      modifies this
      ensures Value() == OnGranted(old(Value()))
    {
      log := log + [Granted];
      if mState == Pending {
        mState := Acquired;
        NotifyAllSubscribers(NoticeGranted, false, Active);
      }
    }

    method EndReleasing()
      modifies this
      ensures Value() == FinishReleasing(old(Value()))
    {
      NotifyAllSubscribers(NoticeClosed, true, Inactive);
      var anyActive := AnyActiveSubscribers();
      if anyActive {
        mState := Pending;
        log := log + [RequestConn];
      } else {
        mState := Released;
      }
    }

    method ProcessReleased()
      modifies this
      ensures Value() == OnReleased(old(Value()))
    {
      log := log + [ReleasedByPeer];
      match mState
      case Acquired =>
        mState := Released;
        NotifyAllSubscribers(NoticeClosed, true, All);
      case Releasing =>
        EndReleasing();
      case _ =>
    }

    method ProcessDenied()
      modifies this
      ensures Value() == OnDenied(old(Value()))
    {
      log := log + [Denied];
      match mState
      case Releasing =>
        EndReleasing();
      case Pending =>
        mState := Released;
        NotifyAllSubscribers(NoticeDenied, true, All);
      case _ =>
    }
  }

  /** The manager of an AGNSS machine, if the device is capable of one, and an internet machine. */
  class AgpsManager {
    const mAgnssNif: AgpsStateMachine?
    const mInternetNif: AgpsStateMachine
    var refused: seq<Spec.Refusal>

    ghost predicate Valid() {
      mAgnssNif != mInternetNif
    }

    ghost function Value(): Spec.Manager
      reads this, mAgnssNif, mInternetNif
    {
      Spec.Manager(if mAgnssNif == null then None else Some(mAgnssNif.Value()), mInternetNif.Value(), refused)
    }

    constructor (agpsCapable: bool)
      ensures Valid() && Value() == Spec.NewManager(agpsCapable)
    {
      if agpsCapable {
        mAgnssNif := new AgpsStateMachine();
      } else {
        mAgnssNif := null;
      }
      mInternetNif := new AgpsStateMachine();
      refused := [];
    }

    function GetAgpsStateMachine(t: Spec.AgpsType): AgpsStateMachine? {
      if t.WwanAny? then mInternetNif else mAgnssNif
    }

    method RequestATL(handle: int, t: Spec.AgpsType)
      requires Valid()
      modifies this, mAgnssNif, mInternetNif
      ensures Value() == Spec.Next(old(Value()), Spec.RequestATL(handle, t))
    {
      var sm := GetAgpsStateMachine(t);
      if sm == null {
        refused := refused + [Spec.NoMachine(handle)];
      } else {
        sm.ProcessSubscribe(Subscriber(handle, t.SuplEs?, false));
      }
    }

    method ReleaseATL(handle: int)
      requires Valid()
      modifies this, mAgnssNif, mInternetNif
      ensures Value() == Spec.Next(old(Value()), Spec.ReleaseATL(handle))
    {
      Spec.FindFinds(mInternetNif.mSubscriberList, handle);
      var found: Option<nat> := None;
      if mAgnssNif != null {
        Spec.FindFinds(mAgnssNif.mSubscriberList, handle);
        found := mAgnssNif.GetSubscriber(handle);
      }
      if found.Some? {
        mAgnssNif.ProcessUnsubscribe(found.value);
      } else {
        found := mInternetNif.GetSubscriber(handle);
        if found.Some? {
          mInternetNif.ProcessUnsubscribe(found.value);
        } else {
          refused := refused + [Spec.UnknownHandle(handle)];
        }
      }
    }

    method ReportAtlOpenSuccess(t: Spec.AgpsType)
      requires Valid() && GetAgpsStateMachine(t) != null
      modifies mAgnssNif, mInternetNif
      ensures Value() == Spec.Next(old(Value()), Spec.OpenSuccess(t))
    {
      GetAgpsStateMachine(t).ProcessGranted();
    }

    method ReportAtlOpenFailed(t: Spec.AgpsType)
      requires Valid() && GetAgpsStateMachine(t) != null
      modifies mAgnssNif, mInternetNif
      ensures Value() == Spec.Next(old(Value()), Spec.OpenFailed(t))
    {
      GetAgpsStateMachine(t).ProcessDenied();
    }

    method ReportAtlClosed(t: Spec.AgpsType)
      requires Valid() && GetAgpsStateMachine(t) != null
      modifies mAgnssNif, mInternetNif
      ensures Value() == Spec.Next(old(Value()), Spec.ConnClosed(t))
    {
      GetAgpsStateMachine(t).ProcessReleased();
    }

    method HandleModemSSR()
      requires Valid()
      modifies mAgnssNif, mInternetNif
      ensures Value() == Spec.Next(old(Value()), Spec.ModemSSR)
    {
      if mAgnssNif != null {
        mAgnssNif.DropAllSubscribers();
      }
      mInternetNif.DropAllSubscribers();
    }
  }
}
