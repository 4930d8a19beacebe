/**
 The AGPS manager without a DS state machine, that is, with emergency SUPL carried by
 the AGNSS machine: which machine each request and each report goes to, and what holds
 of both machines over all runs.
 */
module AgpsManagerSpec {
  import opened Options
  import opened AgpsSpec

  datatype AgpsType = Supl | SuplEs | WwanAny

  datatype Refusal = NoMachine(handle: int) | UnknownHandle(handle: int)

  /** agnss exists only if the device supports MSA or MSB. */
  datatype Manager = Manager(agnss: Option<Machine>, internet: Machine, refused: seq<Refusal>)

  function NewManager(agpsCapable: bool): Manager {
    Manager(if agpsCapable then Some(NEW_MACHINE) else None, NEW_MACHINE, [])
  }

  datatype Action =
    | RequestATL(handle: int, agpsType: AgpsType)
    | ReleaseATL(handle: int)
    | OpenSuccess(agpsType: AgpsType)
    | OpenFailed(agpsType: AgpsType)
    | ConnClosed(agpsType: AgpsType)
    | ModemSSR

  predicate HasMachine(g: Manager, t: AgpsType) {
    t.WwanAny? || g.agnss.Some?
  }

  function MachineOf(g: Manager, t: AgpsType): Machine
    requires HasMachine(g, t)
  {
    if t.WwanAny? then g.internet else g.agnss.value
  }

  function With(g: Manager, t: AgpsType, m: Machine): Manager {
    if t.WwanAny? then g.(internet := m) else g.(agnss := Some(m))
  }

  /** The first subscriber with the handle. */
  function Find(list: seq<Subscriber>, handle: int): Option<nat> {
    if list == [] then None
    else if list[0].mConnHandle == handle then Some(0)
    else match Find(list[1..], handle)
         case None => None
         case Some(i) => Some(i + 1)
  }

  lemma {:induction false} FindFinds(list: seq<Subscriber>, handle: int)
    ensures Find(list, handle).Some? <==> Has(list, handle)
    ensures Find(list, handle).Some? ==>
      Find(list, handle).value < |list| && list[Find(list, handle).value].mConnHandle == handle
  {
    if list != [] {
      FindFinds(list[1..], handle);
      assert forall s :: s in list <==> s == list[0] || s in list[1..];
    }
  }

  function Request(g: Manager, handle: int, t: AgpsType): Manager {
    if HasMachine(g, t) then With(g, t, Subscribe(MachineOf(g, t), Subscriber(handle, t.SuplEs?, false)))
    else g.(refused := g.refused + [NoMachine(handle)])
  }

  function Release(g: Manager, handle: int): Manager {
    FindFinds(if g.agnss.Some? then g.agnss.value.mSubscriberList else [], handle);
    FindFinds(g.internet.mSubscriberList, handle);
    var inAgnss := if g.agnss.Some? then Find(g.agnss.value.mSubscriberList, handle) else None;
    var inInternet := Find(g.internet.mSubscriberList, handle);
    if inAgnss.Some? then g.(agnss := Some(Unsubscribe(g.agnss.value, inAgnss.value)))
    else if inInternet.Some? then g.(internet := Unsubscribe(g.internet, inInternet.value))
    else g.(refused := g.refused + [UnknownHandle(handle)])
  }

  function Ssr(g: Manager): Manager {
    g.(agnss := if g.agnss.Some? then Some(DropAll(g.agnss.value)) else None, internet := DropAll(g.internet))
  }

  /** Reports are only made of types that have a machine: the code does not check. */
  function Next(g: Manager, a: Action): Manager {
    match a
    case RequestATL(handle, t) => Request(g, handle, t)
    case ReleaseATL(handle) => Release(g, handle)
    case OpenSuccess(t) => if HasMachine(g, t) then With(g, t, OnGranted(MachineOf(g, t))) else g
    case OpenFailed(t) => if HasMachine(g, t) then With(g, t, OnDenied(MachineOf(g, t))) else g
    case ConnClosed(t) => if HasMachine(g, t) then With(g, t, OnReleased(MachineOf(g, t))) else g
    case ModemSSR => Ssr(g)
  }

  function Run(agpsCapable: bool, actions: seq<Action>): Manager {
    if actions == [] then NewManager(agpsCapable)
    else Next(Run(agpsCapable, actions[..|actions| - 1]), actions[|actions| - 1])
  }

  ghost predicate Lawful(g: Manager, h: int) {
    (g.agnss.Some? ==> Law(g.agnss.value, h)) && Law(g.internet, h)
  }

  ghost predicate FullyStaffed(g: Manager) {
    (g.agnss.Some? ==> Staffed(g.agnss.value)) && Staffed(g.internet)
  }

  lemma NextKeeps(g: Manager, a: Action, h: int)
    requires Lawful(g, h)
    ensures Lawful(Next(g, a), h)
    ensures FullyStaffed(g) && !a.ModemSSR? ==> FullyStaffed(Next(g, a))
  {
    match a
    case RequestATL(handle, t) =>
      if HasMachine(g, t) { SubscribeKeeps(MachineOf(g, t), Subscriber(handle, t.SuplEs?, false), h); }
    case ReleaseATL(handle) => ReleaseKeeps(g, handle, h);
    case OpenSuccess(t) => if HasMachine(g, t) { GrantedKeeps(MachineOf(g, t), h); }
    case OpenFailed(t) => if HasMachine(g, t) { DeniedKeeps(MachineOf(g, t), h); }
    case ConnClosed(t) => if HasMachine(g, t) { ReleasedKeeps(MachineOf(g, t), h); }
    case ModemSSR =>
      if g.agnss.Some? { DropKeeps(g.agnss.value, h); }
      DropKeeps(g.internet, h);
  }

  lemma ReleaseKeeps(g: Manager, handle: int, h: int)
    requires Lawful(g, h)
    ensures Lawful(Release(g, handle), h)
    ensures FullyStaffed(g) ==> FullyStaffed(Release(g, handle))
  {
    FindFinds(if g.agnss.Some? then g.agnss.value.mSubscriberList else [], handle);
    FindFinds(g.internet.mSubscriberList, handle);
    var inAgnss := if g.agnss.Some? then Find(g.agnss.value.mSubscriberList, handle) else None;
    var inInternet := Find(g.internet.mSubscriberList, handle);
    if inAgnss.Some? {
      UnsubscribeKeeps(g.agnss.value, inAgnss.value, h);
    } else if inInternet.Some? {
      UnsubscribeKeeps(g.internet, inInternet.value, h);
    }
  }

  /**
   In every run, modem SSR included, both machines obey the laws of their connection,
   their list and every handle; in a run without SSR, PENDING and ACQUIRED have an
   active subscriber and RELEASING has one waiting for the close.
   */
  lemma {:induction false} RunsAreLawful(agpsCapable: bool, actions: seq<Action>, h: int)
    ensures Lawful(Run(agpsCapable, actions), h)
    ensures ModemSSR !in actions ==> FullyStaffed(Run(agpsCapable, actions))
  {
    if actions != [] {
      RunsAreLawful(agpsCapable, actions[..|actions| - 1], h);
      NextKeeps(Run(agpsCapable, actions[..|actions| - 1]), actions[|actions| - 1], h);
    }
  }
}
