/**
 The adapters of LocApiBase and the event mask the engine is opened with. A is whatever
 stands for an adapter.
 */
module AdaptersSpec {
  import opened Options

  const MAX_ADAPTERS: nat := 10

  /** A mask of events is the set of its bits. */
  type Mask = set<nat>

  // ---------- The list of adapters ----------

  /** With all slots taken a new adapter is left out. */
  function Added<A(==)>(s: seq<A>, a: A): seq<A> {
    if a in s || |s| >= MAX_ADAPTERS then s else s + [a]
  }

  function IndexOf<A(==)>(s: seq<A>, a: A): (i: nat)
    requires a in s
    ensures i < |s| && s[i] == a && a !in s[..i]
  {
    if s[0] == a then 0 else 1 + IndexOf(s[1..], a)
  }

  /** The last adapter takes the place of the one removed. */
  function Removed<A(==)>(s: seq<A>, a: A): seq<A> {
    if a in s then s[IndexOf(s, a) := s[|s| - 1]][..|s| - 1] else s
  }

  ghost predicate Distinct<A>(s: seq<A>) {
    forall i, j :: 0 <= i < j < |s| ==> s[i] != s[j]
  }

  /** Adding and removing keep the list free of duplicates, and mean just that for the set of adapters. */
  lemma AddedIs<A>(s: seq<A>, a: A)
    requires Distinct(s) && |s| <= MAX_ADAPTERS
    ensures Distinct(Added(s, a)) && |Added(s, a)| <= MAX_ADAPTERS
    ensures forall x :: x in Added(s, a) <==> x in s || (x == a && |s| < MAX_ADAPTERS)
  {
  }

  lemma RemovedIs<A>(s: seq<A>, a: A)
    requires Distinct(s)
    ensures Distinct(Removed(s, a)) && |Removed(s, a)| == |s| - if a in s then 1 else 0
    ensures forall x :: x in Removed(s, a) <==> x in s && x != a
  {
    if a in s {
      var k, n, r := IndexOf(s, a), |s| - 1, Removed(s, a);
      forall x ensures x in r <==> x in s && x != a {
        if x in s && x != a {
          var i :| 0 <= i < |s| && s[i] == x;
          assert r[if i == n then k else i] == x;
        }
      }
    }
  }

  // ---------- The event mask ----------

  function AllOf(masks: seq<Mask>): Mask {
    if masks == [] then {} else AllOf(masks[..|masks| - 1]) + masks[|masks| - 1]
  }

  function EvtMask(masks: seq<Mask>, excluded: Mask): Mask {
    AllOf(masks) - excluded
  }

  /** An event is in the mask exactly when some adapter has it and it is not excluded. */
  lemma {:induction false} EvtMaskHas(masks: seq<Mask>, excluded: Mask, event: nat)
    ensures event in EvtMask(masks, excluded) <==>
            event !in excluded && exists i :: 0 <= i < |masks| && event in masks[i]
  {
    AllOfHas(masks, event);
  }

  lemma {:induction false} AllOfHas(masks: seq<Mask>, event: nat)
    ensures event in AllOf(masks) <==> exists i :: 0 <= i < |masks| && event in masks[i]
  {
    if masks != [] {
      var front := masks[..|masks| - 1];
      AllOfHas(front, event);
      assert forall i :: 0 <= i < |front| ==> front[i] == masks[i];
      if event in masks[|masks| - 1] {
        assert event in AllOf(masks);
      }
    }
  }

  // ---------- Runs ----------

  type Adapter = nat

  /** engine: the mask the engine was last opened with, None when closed. pending: the open messages under way. */
  datatype Api = Api(adapters: seq<Adapter>, masks: map<Adapter, Mask>, excluded: Mask, engine: Option<Mask>,
                     pending: nat)

  function MaskOf(masks: map<Adapter, Mask>, a: Adapter): Mask {
    if a in masks then masks[a] else {}
  }

  function MasksOf(masks: map<Adapter, Mask>, adapters: seq<Adapter>): seq<Mask> {
    seq(|adapters|, i requires 0 <= i < |adapters| => MaskOf(masks, adapters[i]))
  }

  function Current(p: Api): Mask {
    EvtMask(MasksOf(p.masks, p.adapters), p.excluded)
  }

  datatype Action =
    | DoAdd(a: Adapter)
    | DoRemove(a: Adapter)
    | DoSetMask(a: Adapter, mask: Mask)
    | DoOpen

  function Add(p: Api, a: Adapter): Api {
    p.(adapters := Added(p.adapters, a), pending := p.pending + if Added(p.adapters, a) == p.adapters then 0 else 1)
  }

  function Remove(p: Api, a: Adapter): Api {
    if a !in p.adapters then p
    else if |p.adapters| == 1 then p.(adapters := [], engine := None)
    else p.(adapters := Removed(p.adapters, a), pending := p.pending + 1)
  }

  /** An adapter that changes its mask has the engine opened anew there and then. */
  function SetMask(p: Api, a: Adapter, mask: Mask): Api {
    var p' := p.(masks := p.masks[a := mask]);
    p'.(engine := Some(Current(p')))
  }

  /** The body of LocOpenMsg. */
  function Open(p: Api): Api {
    if p.pending == 0 then p else p.(pending := p.pending - 1, engine := Some(Current(p)))
  }

  function Next(p: Api, action: Action): Api {
    match action
    case DoAdd(a) => Add(p, a)
    case DoRemove(a) => Remove(p, a)
    case DoSetMask(a, mask) => SetMask(p, a, mask)
    case DoOpen => Open(p)
  }

  function Run(p: Api, actions: seq<Action>): Api {
    if actions == [] then p else Next(Run(p, actions[..|actions| - 1]), actions[|actions| - 1])
  }

  /**
   When no open message is under way the engine has just the events of the adapters there
   are; without adapters it is closed, or open for no event at all.
   */
  ghost predicate Settled(p: Api) {
    && Distinct(p.adapters) && |p.adapters| <= MAX_ADAPTERS
    && (p.pending == 0 ==> p.engine == Some(Current(p)) || (p.adapters == [] && p.engine == None))
  }

  lemma NextSettles(p: Api, action: Action)
    requires Settled(p)
    ensures Settled(Next(p, action))
  {
    match action
    case DoAdd(a) => AddedIs(p.adapters, a);
    case DoRemove(a) => RemovedIs(p.adapters, a);
    case _ =>
  }

  /** At first there are no adapters; masks are those they will be made with. */
  function Closed(masks: map<Adapter, Mask>, excluded: Mask): Api {
    Api([], masks, excluded, None, 0)
  }

  lemma {:induction false} RunsSettle(masks: map<Adapter, Mask>, excluded: Mask, actions: seq<Action>)
    ensures Settled(Run(Closed(masks, excluded), actions))
  {
    if actions != [] {
      RunsSettle(masks, excluded, actions[..|actions| - 1]);
      NextSettles(Run(Closed(masks, excluded), actions[..|actions| - 1]), actions[|actions| - 1]);
    }
  }

  /** No adapter is left out: none is added anew while all slots are taken. */
  ghost predicate NoneLeftOut(masks: map<Adapter, Mask>, excluded: Mask, actions: seq<Action>) {
    forall k :: 0 <= k < |actions| && actions[k].DoAdd? ==>
      var s := Run(Closed(masks, excluded), actions[..k]).adapters;
      actions[k].a in s || |s| < MAX_ADAPTERS
  }

  /** In a run that leaves none out the adapters are those last added rather than removed. */
  lemma {:induction false} RunRegisters(masks: map<Adapter, Mask>, excluded: Mask, actions: seq<Action>,
                                        a: Adapter)
    requires NoneLeftOut(masks, excluded, actions)
    ensures a in Run(Closed(masks, excluded), actions).adapters <==> LastSays(actions, a)
  {
    if actions != [] {
      var n := |actions| - 1;
      forall k | 0 <= k < n ensures actions[..n][k] == actions[k] && actions[..n][..k] == actions[..k] {
      }
      RunRegisters(masks, excluded, actions[..n], a);
      RunsSettle(masks, excluded, actions[..n]);
      var p := Run(Closed(masks, excluded), actions[..n]);
      match actions[n]
      case DoAdd(b) => AddedIs(p.adapters, b);
      case DoRemove(b) =>
        RemovedIs(p.adapters, b);
        if b in p.adapters && |p.adapters| == 1 {
          assert p.adapters == [b];
        }
      case _ =>
    }
  }

  /** The last of the actions about an adapter adds it. */
  predicate LastSays(actions: seq<Action>, a: Adapter) {
    if actions == [] then false
    else
      var last := actions[|actions| - 1];
      if last == DoAdd(a) then true
      else if last == DoRemove(a) then false
      else LastSays(actions[..|actions| - 1], a)
  }

  // ---------- What the engine is opened for ----------

  /** The mask an adapter was last given, or was made with. */
  function LastMask(masks: map<Adapter, Mask>, actions: seq<Action>, a: Adapter): Mask {
    if actions == [] then MaskOf(masks, a)
    else match actions[|actions| - 1]
         case DoSetMask(b, mask) => if b == a then mask else LastMask(masks, actions[..|actions| - 1], a)
         case _ => LastMask(masks, actions[..|actions| - 1], a)
  }

  lemma {:induction false} RunMasks(masks: map<Adapter, Mask>, excluded: Mask, actions: seq<Action>, a: Adapter)
    ensures MaskOf(Run(Closed(masks, excluded), actions).masks, a) == LastMask(masks, actions, a)
    ensures Run(Closed(masks, excluded), actions).excluded == excluded
  {
    if actions != [] {
      RunMasks(masks, excluded, actions[..|actions| - 1], a);
    }
  }

  /**
   In every run, with no open message under way, the engine has an event exactly if one of
   the adapters there are was last given a mask with it, and it is not excluded.
   */
  lemma EngineHas(masks: map<Adapter, Mask>, excluded: Mask, actions: seq<Action>, event: nat)
    requires Run(Closed(masks, excluded), actions).pending == 0
    ensures var p := Run(Closed(masks, excluded), actions);
            (p.engine.Some? && event in p.engine.value) <==>
              event !in excluded && exists a :: a in p.adapters && event in LastMask(masks, actions, a)
  {
    var p := Run(Closed(masks, excluded), actions);
    RunsSettle(masks, excluded, actions);
    RunMasks(masks, excluded, actions, 0);
    EvtMaskHas(MasksOf(p.masks, p.adapters), excluded, event);
    forall a ensures MaskOf(p.masks, a) == LastMask(masks, actions, a) {
      RunMasks(masks, excluded, actions, a);
    }
    if i :| 0 <= i < |p.adapters| && event in MasksOf(p.masks, p.adapters)[i] {
      assert p.adapters[i] in p.adapters;
    }
    if a :| a in p.adapters && event in LastMask(masks, actions, a) {
      var i :| 0 <= i < |p.adapters| && p.adapters[i] == a;
      assert event in MasksOf(p.masks, p.adapters)[i];
    }
  }

  // ---------- After the last adapter ----------

  /** No message or mask change opens the engine: while none is under way, no open message is processed. */
  predicate NothingOpens(pending: nat, actions: seq<Action>) {
    && (forall a :: a in actions ==> !a.DoSetMask?)
    && (pending == 0 || DoOpen !in actions)
  }

  lemma NothingOpensMore(pending: nat, front: seq<Action>, last: Action)
    ensures NothingOpens(pending, front + [last])
       <==> NothingOpens(pending, front) && !last.DoSetMask? && (pending == 0 || last != DoOpen)
  {
    var actions := front + [last];
    assert forall a :: a in actions <==> a in front || a == last;
  }

  /**
   When the last adapter leaves the engine is closed. Until another is added it stays
   closed exactly if no open message was under way then, or none of those is processed,
   and nobody changes a mask; otherwise it is open, for no event.
   */
  lemma {:induction false} StaysClosedIff(p: Api, a: Adapter, actions: seq<Action>)
    requires Settled(p) && p.adapters == [a]
    requires forall action :: action in actions ==> !action.DoAdd?
    ensures var p' := Run(Remove(p, a), actions);
            && p'.adapters == [] && p'.pending <= p.pending
            && p'.engine == if NothingOpens(p.pending, actions) then None else Some({})
    ensures p.pending > 0 && DoOpen !in actions ==> Run(Remove(p, a), actions).pending == p.pending
  {
    if actions == [] {
      assert Remove(p, a).engine == None;
    } else {
      var front, last := actions[..|actions| - 1], actions[|actions| - 1];
      assert actions == front + [last];
      assert forall action :: action in front ==> action in actions;
      StaysClosedIff(p, a, front);
      NothingOpensMore(p.pending, front, last);
      OpensForNothing(Run(Remove(p, a), front), last);
    }
  }

  lemma OpensForNothing(p: Api, action: Action)
    requires p.adapters == [] && !action.DoAdd?
    ensures var p' := Next(p, action);
            && p'.adapters == []
            && p'.pending == (if action == DoOpen && p.pending > 0 then p.pending - 1 else p.pending)
            && p'.engine == if action.DoSetMask? || (action == DoOpen && p.pending > 0) then Some({}) else p.engine
  {
    assert forall masks: map<Adapter, Mask> :: MasksOf(masks, []) == [];
    assert {} - p.excluded == {};
  }

  /** The message of an adapter that comes and goes is enough for that. */
  lemma StaleOpenReopens(a: Adapter, masks: map<Adapter, Mask>, excluded: Mask)
    ensures var p := Open(Remove(Add(Closed(masks, excluded), a), a));
            p.adapters == [] && p.pending == 0 && p.engine == Some({})
  {
    var p := Add(Closed(masks, excluded), a);
    assert p.adapters == [a];
    NextSettles(Closed(masks, excluded), DoAdd(a));
    StaysClosedIff(p, a, [DoOpen]);
    assert DoOpen in [DoOpen] && [DoOpen][..0] == [];
  }
}
