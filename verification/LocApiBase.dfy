/** LocApiBase's adapter array as it is built, and the message bodies that open the engine. */
module LocApiBase {
  import opened Options
  import opened AdaptersSpec

  class LocAdapterBase {
    var mEvtMask: Mask

    constructor (mask: Mask)
      ensures mEvtMask == mask
    {
      mEvtMask := mask;
    }
  }

  class LocApiBase {
    const mLocAdapters: array<LocAdapterBase?>
    const mExcludedMask: Mask
    var mOpened: Option<Mask>
    var mPending: nat
    ghost var count: nat

    /** The array has no holes: adapters first, then nulls. */
    ghost predicate Valid()
      reads this, mLocAdapters
    {
      && mLocAdapters.Length == MAX_ADAPTERS && count <= MAX_ADAPTERS
      && (forall i :: 0 <= i < count ==> mLocAdapters[i] != null)
      && (forall i :: count <= i < MAX_ADAPTERS ==> mLocAdapters[i] == null)
      && Distinct(mLocAdapters[..count])
    }

    ghost function Adapters(): (s: seq<LocAdapterBase?>)
      reads this, mLocAdapters
      requires Valid()
      ensures |s| <= MAX_ADAPTERS && null !in s && Distinct(s)
    {
      mLocAdapters[..count]
    }

    constructor (excludedMask: Mask)
      ensures Valid() && fresh(mLocAdapters) && Adapters() == [] && mExcludedMask == excludedMask
      ensures mOpened == None && mPending == 0
    {
      mLocAdapters := new LocAdapterBase?[MAX_ADAPTERS](_ => null);
      mExcludedMask := excludedMask;
      mOpened, mPending, count := None, 0, 0;
    }

    method GetEvtMask() returns (mask: Mask)
      requires Valid()
      ensures mask == EvtMask(Masks(Adapters()), mExcludedMask)
    {
      mask := {};
      var i := 0;
      while i < MAX_ADAPTERS && mLocAdapters[i] != null
        invariant i <= count
        invariant mask == AllOf(Masks(Adapters()[..i]))
      {
        MasksMore(Adapters(), i);
        mask := mask + mLocAdapters[i].mEvtMask;
        i := i + 1;
      }
      assert Adapters()[..i] == Adapters();
      mask := mask - mExcludedMask;
    }

    method AddAdapter(adapter: LocAdapterBase)
      requires Valid()
      modifies this, mLocAdapters
      ensures Valid() && Adapters() == Added(old(Adapters()), adapter)
      ensures mOpened == old(mOpened)
      ensures mPending == old(mPending) + if Adapters() == old(Adapters()) then 0 else 1
    {
      var i := 0;
      while i < MAX_ADAPTERS && mLocAdapters[i] != adapter
        invariant i <= count && adapter !in mLocAdapters[..i]
        invariant Valid() && Adapters() == old(Adapters()) && mOpened == old(mOpened) && mPending == old(mPending)
      {
        if mLocAdapters[i] == null {
          mLocAdapters[i] := adapter;
          count := count + 1;
          mPending := mPending + 1;
          assert mLocAdapters[..count] == old(Adapters()) + [adapter];
          break;
        }
        i := i + 1;
      }
    }

    /** Takes the adapter at j out and moves the last one there; i is the slot that one leaves. */
    method FillGap(j: nat) returns (i: nat)
      requires Valid() && j < count
      modifies mLocAdapters, this`count
      ensures Valid() && i == count == old(count) - 1
      ensures Adapters() == old(Adapters())[j := old(Adapters())[i]][..i]
    {
      ghost var was := Adapters();
      mLocAdapters[j] := null;
      i := j + 1;
      while i < MAX_ADAPTERS && mLocAdapters[i] != null
        invariant j < i <= count
        invariant mLocAdapters[..] == old(mLocAdapters[..])[j := null]
      {
        i := i + 1;
      }
      i := i - 1;
      mLocAdapters[j] := mLocAdapters[i];
      mLocAdapters[i] := null;
      count := count - 1;
      GapFilled(was, j);
      assert mLocAdapters[..count] == was[j := was[i]][..i];
    }

    /** closed: close() was called. */
    method RemoveAdapter(adapter: LocAdapterBase) returns (closed: bool)
      requires Valid()
      modifies this, mLocAdapters
      ensures Valid() && Adapters() == Removed(old(Adapters()), adapter)
      ensures closed <==> old(Adapters()) != [] && Adapters() == []
      ensures mOpened == if closed then None else old(mOpened)
      ensures mPending == old(mPending) + if closed || Adapters() == old(Adapters()) then 0 else 1
    {
      closed := false;
      var i := 0;
      while i < MAX_ADAPTERS && mLocAdapters[i] != null
        invariant i <= MAX_ADAPTERS && mOpened == old(mOpened) && mPending == old(mPending) && !closed
        invariant i <= count && Valid() && Adapters() == old(Adapters()) && adapter !in mLocAdapters[..i]
      {
        if mLocAdapters[i] == adapter {
          RemovedAt(Adapters(), adapter, i);
          i := FillGap(i);
          if i == 0 {
            closed := true;
            mOpened := None;
          } else {
            mPending := mPending + 1;
          }
          // the next slot is past the adapters: the loop ends here
          return;
        }
        i := i + 1;
      }
      assert adapter !in old(Adapters());
    }

    method UpdateEvtMask(adapter: LocAdapterBase, mask: Mask)
      requires Valid()
      modifies adapter`mEvtMask, this`mOpened
      ensures adapter.mEvtMask == mask
      ensures mOpened == Some(EvtMask(Masks(Adapters()), mExcludedMask))
    {
      adapter.mEvtMask := mask;
      var current := GetEvtMask();
      mOpened := Some(current);
    }

    method OpenWith(mask: Mask)
      requires mPending > 0
      modifies this`mOpened, this`mPending
      ensures mPending == old(mPending) - 1 && mOpened == Some(mask)
    {
      mPending := mPending - 1;
      mOpened := Some(mask);
    }

    method ProcOpen()
      requires Valid() && mPending > 0
      modifies this`mOpened, this`mPending
      ensures Valid() && mPending == old(mPending) - 1
      ensures mOpened == Some(EvtMask(Masks(Adapters()), mExcludedMask))
    {
      ghost var adapters := Adapters();
      var current := GetEvtMask();
      OpenWith(current);
      assert Adapters() == adapters;
      assert Masks(adapters) == old(Masks(adapters));
    }
  }

  ghost function Masks(adapters: seq<LocAdapterBase?>): (masks: seq<Mask>)
    requires null !in adapters
    reads set a | a in adapters
    ensures |masks| == |adapters| && forall i :: 0 <= i < |adapters| ==> masks[i] == adapters[i].mEvtMask
  {
    if adapters == [] then [] else Masks(adapters[..|adapters| - 1]) + [adapters[|adapters| - 1].mEvtMask]
  }

  lemma MasksMore(adapters: seq<LocAdapterBase?>, i: nat)
    requires i < |adapters| && null !in adapters
    ensures AllOf(Masks(adapters[..i + 1])) == AllOf(Masks(adapters[..i])) + adapters[i].mEvtMask
  {
    assert adapters[..i + 1][..i] == adapters[..i];
    assert Masks(adapters[..i + 1])[..i] == Masks(adapters[..i]);
  }

  lemma GapFilled<A>(s: seq<A>, j: nat)
    requires j < |s| && Distinct(s)
    ensures Distinct(s[j := s[|s| - 1]][..|s| - 1])
  {
  }

  lemma RemovedAt<A>(s: seq<A>, a: A, i: nat)
    requires i < |s| && s[i] == a && a !in s[..i] && Distinct(s)
    ensures Removed(s, a) == s[i := s[|s| - 1]][..|s| - 1] && Distinct(Removed(s, a))
  {
    RemovedIs(s, a);
    assert forall k :: 0 <= k < i ==> s[k] == s[..i][k];
    assert forall k :: 0 <= k < IndexOf(s, a) ==> s[k] == s[..IndexOf(s, a)][k];
  }
}
