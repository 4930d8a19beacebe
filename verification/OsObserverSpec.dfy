/**
 SystemStatusOsObserver's subscriptions: who wants which data items, kept in two maps,
 and what the framework has been asked to report. Requests are the message bodies; the
 empty list and the null client are refused before a message is sent.
 */
module OsObserverSpec {
  import opened Options
  import opened SetMaps

  type Client = nat
  type Item = nat

  /** framework is what the current subscription object has been asked for; None while there is no object. */
  datatype State = State(
    clientToItems: SetMap<Client, Item>,
    itemToClients: SetMap<Item, Client>,
    framework: Option<set<Item>>,
    cache: map<Item, int>)

  const INIT := State(map[], map[], None, map[])

  function Register(framework: Option<set<Item>>, subscribe: set<Item>, unsubscribe: set<Item>): Option<set<Item>> {
    match framework
    case None => None
    case Some(f) => Some(f + subscribe - unsubscribe)
  }

  function SetSubscriptionObj(s: State): State {
    s.(framework := Some(s.itemToClients.Keys))
  }

  /** subscribe and requestData alike: they differ in the call the framework gets for new items. */
  function Subscribe(s: State, items: set<Item>, c: Client): State {
    s.(itemToClients := Add(s.itemToClients, items, {c}),
       clientToItems := Add(s.clientToItems, {c}, items),
       framework := Register(s.framework, NewKeys(s.itemToClients, items, {c}), {}))
  }

  /**
   updateSubscription. LocUnorderedSetMap::update hands back the items the client keeps,
   not those it gives up, and this takes the client out of their entries.
   */
  function UpdateSubscription(s: State, items: set<Item>, c: Client): State {
    var (clientToItems, gone, fresh') := Update(s.clientToItems, c, items);
    var trimmed := Trim(s.itemToClients, gone, {c});
    s.(clientToItems := clientToItems,
       itemToClients := Add(trimmed, fresh', {c}),
       framework := Register(s.framework, NewKeys(trimmed, fresh', {c}), GoneKeys(s.itemToClients, gone, {c})))
  }

  function Unsubscribe(s: State, items: set<Item>, c: Client): State {
    var unused := Get(s.clientToItems, c) * items;
    s.(clientToItems := Trim(s.clientToItems, {c}, items),
       itemToClients := Trim(s.itemToClients, unused, {c}),
       framework := Register(s.framework, {}, GoneKeys(s.itemToClients, unused, {c})))
  }

  function UnsubscribeAll(s: State, c: Client): State {
    var items := Get(s.clientToItems, c);
    if items == {} then s
    else s.(clientToItems := s.clientToItems - {c},
            itemToClients := Trim(s.itemToClients, items, {c}),
            framework := Register(s.framework, {}, GoneKeys(s.itemToClients, items, {c})))
  }

  // ---------- The law ----------

  ghost predicate Inverse(s: State) {
    forall c, d :: d in Get(s.clientToItems, c) <==> c in Get(s.itemToClients, d)
  }

  ghost predicate NoEmpty(s: State) {
    && (forall c :: c in s.clientToItems ==> s.clientToItems[c] != {})
    && (forall d :: d in s.itemToClients ==> s.itemToClients[d] != {})
  }

  ghost predicate Registered(s: State) {
    s.framework.Some? ==> s.framework.value == s.itemToClients.Keys
  }

  ghost predicate Law(s: State) {
    Inverse(s) && NoEmpty(s) && Registered(s)
  }

  /** Given the law, the framework has been asked for exactly the items some client subscribes to. */
  lemma FrameworkHasUnion(s: State, d: Item)
    requires Law(s) && s.framework.Some?
    ensures d in s.framework.value <==> exists c :: c in s.clientToItems && d in s.clientToItems[c]
  {
    if d in s.itemToClients {
      var c :| c in s.itemToClients[d];
      assert c in Get(s.itemToClients, d);
      assert d in Get(s.clientToItems, c);
    }
    if c :| c in s.clientToItems && d in s.clientToItems[c] {
      assert d in Get(s.clientToItems, c);
      assert c in Get(s.itemToClients, d);
    }
  }

  // ---------- What the map operations do to one entry ----------

  lemma AddGets<K, V>(m: SetMap<K, V>, keys: set<K>, vals: set<V>, k: K)
    requires vals != {}
    ensures Get(Add(m, keys, vals), k) == if k in keys then Get(m, k) + vals else Get(m, k)
    ensures Add(m, keys, vals).Keys == m.Keys + NewKeys(m, keys, vals)
  {
  }

  lemma TrimGets<K, V>(m: SetMap<K, V>, keys: set<K>, vals: set<V>, k: K)
    ensures Get(Trim(m, keys, vals), k) == if k in keys then Get(m, k) - vals else Get(m, k)
    ensures Trim(m, keys, vals).Keys == m.Keys - GoneKeys(m, keys, vals)
  {
  }

  lemma SubscribeKeeps(s: State, items: set<Item>, c: Client)
    requires Law(s) && items != {}
    ensures Law(Subscribe(s, items, c))
  {
    SubscribeInverts(s, items, c);
    AddGets(s.itemToClients, items, {c}, 0);
    AddKeepsFull(s.itemToClients, items, {c});
    AddKeepsFull(s.clientToItems, {c}, items);
  }

  lemma AddKeepsFull<K, V>(m: SetMap<K, V>, keys: set<K>, vals: set<V>)
    requires vals != {} && forall k :: k in m ==> m[k] != {}
    ensures forall k :: k in Add(m, keys, vals) ==> Add(m, keys, vals)[k] != {}
  {
  }

  lemma SubscribeInverts(s: State, items: set<Item>, c: Client)
    requires Inverse(s) && items != {}
    ensures Inverse(Subscribe(s, items, c))
  {
    var s' := Subscribe(s, items, c);
    forall b, d ensures d in Get(s'.clientToItems, b) <==> b in Get(s'.itemToClients, d) {
      AddGets(s.itemToClients, items, {c}, d);
      AddGets(s.clientToItems, {c}, items, b);
      assert d in Get(s.clientToItems, b) <==> b in Get(s.itemToClients, d);
    }
  }

  // ---------- What each request does to the entries ----------

  lemma SubscribeGets(s: State, items: set<Item>, c: Client, b: Client, d: Item)
    requires items != {}
    ensures var s' := Subscribe(s, items, c);
            && Get(s'.clientToItems, b) == Get(s.clientToItems, b) + (if b == c then items else {})
            && Get(s'.itemToClients, d) == Get(s.itemToClients, d) + (if d in items then {c} else {})
  {
    AddGets(s.clientToItems, {c}, items, b);
    AddGets(s.itemToClients, items, {c}, d);
  }

  /** The client is taken out of the entries of the items it had among those it gives up. */
  lemma UnsubscribeGets(s: State, items: set<Item>, c: Client, b: Client, d: Item)
    ensures var s', mine := Unsubscribe(s, items, c), Get(s.clientToItems, c);
            && Get(s'.clientToItems, b) == Get(s.clientToItems, b) - (if b == c then items else {})
            && Get(s'.itemToClients, d) == Get(s.itemToClients, d) - (if d in items && d in mine then {c} else {})
  {
    TrimGets(s.clientToItems, {c}, items, b);
    TrimGets(s.itemToClients, Get(s.clientToItems, c) * items, {c}, d);
  }

  lemma UnsubscribeAllGets(s: State, c: Client, b: Client, d: Item)
    ensures var s', mine := UnsubscribeAll(s, c), Get(s.clientToItems, c);
            && Get(s'.clientToItems, b) == (if b == c then {} else Get(s.clientToItems, b))
            && Get(s'.itemToClients, d) == Get(s.itemToClients, d) - (if d in mine then {c} else {})
  {
    TrimGets(s.itemToClients, Get(s.clientToItems, c), {c}, d);
  }

  lemma UnsubscribeKeeps(s: State, items: set<Item>, c: Client)
    requires Law(s)
    ensures Law(Unsubscribe(s, items, c))
  {
    var unused := Get(s.clientToItems, c) * items;
    var s' := Unsubscribe(s, items, c);
    forall d
      ensures Get(s'.itemToClients, d) ==
        if d in unused then Get(s.itemToClients, d) - {c} else Get(s.itemToClients, d)
    {
      TrimGets(s.itemToClients, unused, {c}, d);
    }
    forall b
      ensures Get(s'.clientToItems, b) ==
        if b in {c} then Get(s.clientToItems, b) - items else Get(s.clientToItems, b)
    {
      TrimGets(s.clientToItems, {c}, items, b);
    }
    TrimGets(s.itemToClients, unused, {c}, 0);
  }

  lemma UnsubscribeAllKeeps(s: State, c: Client)
    requires Law(s)
    ensures Law(UnsubscribeAll(s, c))
  {
    var items := Get(s.clientToItems, c);
    var s' := UnsubscribeAll(s, c);
    if items != {} {
      forall d
        ensures Get(s'.itemToClients, d) ==
          if d in items then Get(s.itemToClients, d) - {c} else Get(s.itemToClients, d)
      {
        TrimGets(s.itemToClients, items, {c}, d);
      }
      TrimGets(s.itemToClients, items, {c}, 0);
      forall b, d ensures d in Get(s'.clientToItems, b) <==> b in Get(s'.itemToClients, d) {
        assert d in Get(s.clientToItems, b) <==> b in Get(s.itemToClients, d);
      }
    }
  }

  // ---------- updateSubscription ----------

  /** What one update makes of the entries of client b and of item d. */
  lemma UpdateGets(s: State, items: set<Item>, c: Client, b: Client, d: Item)
    requires items != {}
    ensures var s', old' := UpdateSubscription(s, items, c), Get(s.clientToItems, c);
            && Get(s'.clientToItems, b) == (if b == c then items else Get(s.clientToItems, b))
            && Get(s'.itemToClients, d)
               == (if d in old' * items then Get(s.itemToClients, d) - {c}
                   else if d in items then Get(s.itemToClients, d) + {c}
                   else Get(s.itemToClients, d))
  {
    var gone, rest := Get(s.clientToItems, c) * items, items - Get(s.clientToItems, c);
    var trimmed := Trim(s.itemToClients, gone, {c});
    assert UpdateSubscription(s, items, c).itemToClients == Add(trimmed, rest, {c});
    TrimGets(s.itemToClients, gone, {c}, d);
    AddGets(trimmed, rest, {c}, d);
    assert d in rest <==> d in items && d !in gone;
  }

  /** Entries stay non-empty and the framework follows the item map, whatever else goes wrong. */
  lemma UpdateRegisters(s: State, items: set<Item>, c: Client)
    requires items != {} && NoEmpty(s) && Registered(s)
    ensures NoEmpty(UpdateSubscription(s, items, c)) && Registered(UpdateSubscription(s, items, c))
  {
    var gone, rest := Get(s.clientToItems, c) * items, items - Get(s.clientToItems, c);
    var trimmed := Trim(s.itemToClients, gone, {c});
    TrimGets(s.itemToClients, gone, {c}, 0);
    AddGets(trimmed, rest, {c}, 0);
    assert GoneKeys(s.itemToClients, gone, {c}) !! NewKeys(trimmed, rest, {c});
  }

  /**
   An update keeps the two maps inverse exactly when the client had no subscription to
   begin with: items it gives up keep listing it, items it keeps no longer do.
   */
  lemma UpdateKeepsInverseIff(s: State, items: set<Item>, c: Client)
    requires Law(s) && items != {}
    ensures Inverse(UpdateSubscription(s, items, c)) <==> c !in s.clientToItems
  {
    var s' := UpdateSubscription(s, items, c);
    if c !in s.clientToItems {
      forall b, d ensures d in Get(s'.clientToItems, b) <==> b in Get(s'.itemToClients, d) {
        UpdateGets(s, items, c, b, d);
        assert d in Get(s.clientToItems, b) <==> b in Get(s.itemToClients, d);
      }
    } else {
      var d :| d in s.clientToItems[c];
      UpdateGets(s, items, c, c, d);
      assert d in Get(s.clientToItems, c);
      assert c in Get(s.itemToClients, d);
      assert !(d in Get(s'.clientToItems, c) <==> c in Get(s'.itemToClients, d));
    }
  }

  /** One client, subscribed to item 1, asks for items 1 and 2: nobody gets item 1 any more. */
  lemma UpdateForgetsKeptItem()
    ensures var s := Subscribe(SetSubscriptionObj(INIT), {1}, 7);
            var s' := UpdateSubscription(s, {1, 2}, 7);
            && Law(s) && !Inverse(s')
            && 1 in s'.clientToItems[7] && 1 !in s'.itemToClients && s'.framework == Some({2})
  {
    var s0 := SetSubscriptionObj(INIT);
    SubscribeKeeps(s0, {1}, 7);
    var s := Subscribe(s0, {1}, 7);
    AddOneIs<Client, Item>(map[], 7, {1});
    AddOneIs<Item, Client>(map[], 1, {7});
    assert s.clientToItems[7] == {1};
    UpdateKeepsInverseIff(s, {1, 2}, 7);
    UpdateGets(s, {1, 2}, 7, 7, 1);
    assert Get(s.itemToClients, 1) == {7};
    UpdateRegisters(s, {1, 2}, 7);
    var s' := UpdateSubscription(s, {1, 2}, 7);
    assert s'.itemToClients.Keys == {2};
  }

  /** The update its comments describe, which trims the items the client gives up. */
  function UpdateAsDocumented(s: State, items: set<Item>, c: Client): State {
    var gone, rest := Get(s.clientToItems, c) - items, items - Get(s.clientToItems, c);
    var trimmed := Trim(s.itemToClients, gone, {c});
    s.(clientToItems := s.clientToItems[c := items],
       itemToClients := Add(trimmed, rest, {c}),
       framework := Register(s.framework, NewKeys(trimmed, rest, {c}), GoneKeys(s.itemToClients, gone, {c})))
  }

  /** The documented update always keeps the law. */
  lemma DocumentedUpdateKeeps(s: State, items: set<Item>, c: Client)
    requires Law(s) && items != {}
    ensures Law(UpdateAsDocumented(s, items, c))
  {
    var gone, rest := Get(s.clientToItems, c) - items, items - Get(s.clientToItems, c);
    var trimmed := Trim(s.itemToClients, gone, {c});
    var s' := UpdateAsDocumented(s, items, c);
    forall b, d ensures d in Get(s'.clientToItems, b) <==> b in Get(s'.itemToClients, d) {
      TrimGets(s.itemToClients, gone, {c}, d);
      AddGets(trimmed, rest, {c}, d);
      assert d in Get(s.clientToItems, b) <==> b in Get(s.itemToClients, d);
    }
    TrimGets(s.itemToClients, gone, {c}, 0);
    AddGets(trimmed, rest, {c}, 0);
    assert GoneKeys(s.itemToClients, gone, {c}) !! NewKeys(trimmed, rest, {c});
  }

  // ---------- Runs ----------

  datatype Request =
    | DoSetSubscriptionObj
    | DoSubscribe(items: set<Item>, c: Client)
    | DoUpdate(items: set<Item>, c: Client)
    | DoUnsubscribe(items: set<Item>, c: Client)
    | DoUnsubscribeAll(c: Client)
    | DoNotify(reports: seq<Option<Report>>)

  /** A request about no items is refused. */
  function Next(s: State, r: Request): State {
    match r
    case DoSetSubscriptionObj => SetSubscriptionObj(s)
    case DoSubscribe(items, c) => if items == {} then s else Subscribe(s, items, c)
    case DoUpdate(items, c) => if items == {} then s else UpdateSubscription(s, items, c)
    case DoUnsubscribe(items, c) => if items == {} then s else Unsubscribe(s, items, c)
    case DoUnsubscribeAll(c) => UnsubscribeAll(s, c)
    case DoNotify(reports) => Notify(s, reports)
  }

  function Run(requests: seq<Request>): State {
    if requests == [] then INIT else Next(Run(requests[..|requests| - 1]), requests[|requests| - 1])
  }

  /** No update in the run comes from a client that is subscribed at that point. */
  ghost predicate UpdatesAreFirst(requests: seq<Request>) {
    forall i :: 0 <= i < |requests| && requests[i].DoUpdate? && requests[i].items != {} ==>
      requests[i].c !in Run(requests[..i]).clientToItems
  }

  lemma NextKeeps(s: State, r: Request)
    requires Law(s) && (r.DoUpdate? && r.items != {} ==> r.c !in s.clientToItems)
    ensures Law(Next(s, r))
  {
    match r
    case DoSetSubscriptionObj =>
    case DoSubscribe(items, c) => if items != {} { SubscribeKeeps(s, items, c); }
    case DoUpdate(items, c) =>
      if items != {} {
        UpdateKeepsInverseIff(s, items, c);
        UpdateRegisters(s, items, c);
      }
    case DoUnsubscribe(items, c) => UnsubscribeKeeps(s, items, c);
    case DoUnsubscribeAll(c) => UnsubscribeAllKeeps(s, c);
    case DoNotify(_) =>
  }

  /**
   The law holds at the end of every run whose updates all come from clients not yet
   subscribed; what the framework is asked for follows the item map in every run.
   */
  lemma {:induction false} RunsAreLawful(requests: seq<Request>)
    ensures NoEmpty(Run(requests)) && Registered(Run(requests))
    ensures UpdatesAreFirst(requests) ==> Law(Run(requests))
  {
    if requests != [] {
      var front, r := requests[..|requests| - 1], requests[|requests| - 1];
      var s := Run(front);
      RunsAreLawful(front);
      NextRegisters(s, r);
      if UpdatesAreFirst(requests) {
        forall i | 0 <= i < |front| && front[i].DoUpdate? && front[i].items != {}
          ensures front[i].c !in Run(front[..i]).clientToItems
        {
          assert front[..i] == requests[..i] && requests[i] == front[i];
        }
        assert requests[|requests| - 1] == r;
        NextKeeps(s, r);
      }
    }
  }

  lemma NextRegisters(s: State, r: Request)
    requires NoEmpty(s) && Registered(s)
    ensures NoEmpty(Next(s, r)) && Registered(Next(s, r))
  {
    match r
    case DoSetSubscriptionObj =>
    case DoSubscribe(items, c) =>
      if items != {} { AddGets(s.itemToClients, items, {c}, 0); }
    case DoUpdate(items, c) =>
      if items != {} { UpdateRegisters(s, items, c); }
    case DoUnsubscribe(items, c) =>
      TrimGets(s.itemToClients, Get(s.clientToItems, c) * items, {c}, 0);
    case DoUnsubscribeAll(c) =>
      TrimGets(s.itemToClients, Get(s.clientToItems, c), {c}, 0);
    case DoNotify(_) =>
  }

  // ---------- Who has subscribed to what ----------

  /** Whether client c has item d in its set, and whether d lists c. */
  datatype Standing = Standing(has: bool, listed: bool)

  /** A request about client c, for item d. */
  function Stand(p: Standing, r: Request, c: Client, d: Item): Standing {
    match r
    case DoSubscribe(items, b) => if b == c && d in items then Standing(true, true) else p
    case DoUpdate(items, b) =>
      if b != c || items == {} then p
      else if d in items then Standing(true, !p.has)   // an item the client keeps forgets it
      else Standing(false, p.listed)                   // one it gives up does not
    case DoUnsubscribe(items, b) => if b == c && d in items then Standing(false, p.listed && !p.has) else p
    case DoUnsubscribeAll(b) => if b == c then Standing(false, p.listed && !p.has) else p
    case _ => p
  }

  function Standings(requests: seq<Request>, c: Client, d: Item): Standing {
    if requests == [] then Standing(false, false)
    else Stand(Standings(requests[..|requests| - 1], c, d), requests[|requests| - 1], c, d)
  }

  function StandingIn(s: State, c: Client, d: Item): Standing {
    Standing(d in Get(s.clientToItems, c), c in Get(s.itemToClients, d))
  }

  lemma NextStands(s: State, r: Request, c: Client, d: Item)
    ensures StandingIn(Next(s, r), c, d) == Stand(StandingIn(s, c, d), r, c, d)
    ensures Next(s, r).framework.Some? <==> s.framework.Some? || r == DoSetSubscriptionObj
  {
    match r
    case DoSubscribe(items, b) => if items != {} { SubscribeGets(s, items, b, c, d); }
    case DoUpdate(items, b) => if items != {} { UpdateGets(s, items, b, c, d); }
    case DoUnsubscribe(items, b) => UnsubscribeGets(s, items, b, c, d);
    case DoUnsubscribeAll(b) => UnsubscribeAllGets(s, b, c, d);
    case _ =>
  }

  /**
   In every run, for every client and item: whether the client has the item, and whether
   the item lists the client, follows from the requests about the two alone. The client
   has it exactly if the last request that names both, or an update or the end of all of
   the client's, says so. The framework is asked once there is a subscription object.
   */
  lemma {:induction false} RunsStand(requests: seq<Request>, c: Client, d: Item)
    ensures StandingIn(Run(requests), c, d) == Standings(requests, c, d)
    ensures d in Get(Run(requests).clientToItems, c) <==> LastSays(requests, c, d)
    ensures Run(requests).framework.Some? <==> DoSetSubscriptionObj in requests
  {
    if requests != [] {
      var front, r := requests[..|requests| - 1], requests[|requests| - 1];
      RunsStand(front, c, d);
      NextStands(Run(front), r, c, d);
      assert requests == front + [r];
    }
  }

  /** The last request about c and d puts d into the set of c. */
  predicate LastSays(requests: seq<Request>, c: Client, d: Item) {
    if requests == [] then false
    else
      var front := requests[..|requests| - 1];
      match requests[|requests| - 1]
      case DoSubscribe(items, b) => (b == c && d in items) || LastSays(front, c, d)
      case DoUpdate(items, b) => if b == c && items != {} then d in items else LastSays(front, c, d)
      case DoUnsubscribe(items, b) => !(b == c && d in items) && LastSays(front, c, d)
      case DoUnsubscribeAll(b) => b != c && LastSays(front, c, d)
      case _ => LastSays(front, c, d)
  }

  // ---------- Notification ----------

  /**
   One entry of a notification. handled: SystemStatus takes the item; made: the factory
   can make a cache entry for it. A cache entry takes over a value that differs.
   */
  datatype Report = Report(id: Item, value: int, handled: bool, made: bool)

  predicate IsNews(cache: map<Item, int>, report: Option<Report>) {
    && report.Some? && report.value.handled
    && (if report.value.id in cache then cache[report.value.id] != report.value.value else report.value.made)
  }

  function UpdateCache(cache: map<Item, int>, report: Option<Report>): map<Item, int> {
    if IsNews(cache, report) then cache[report.value.id := report.value.value] else cache
  }

  function Cached(cache: map<Item, int>, reports: seq<Option<Report>>): map<Item, int> {
    if reports == [] then cache
    else UpdateCache(Cached(cache, reports[..|reports| - 1]), reports[|reports| - 1])
  }

  /** The items some entry was news about when its turn came. */
  function Updated(cache: map<Item, int>, reports: seq<Option<Report>>): set<Item> {
    if reports == [] then {}
    else
      var front, last := reports[..|reports| - 1], reports[|reports| - 1];
      Updated(cache, front) + if IsNews(Cached(cache, front), last) then {last.value.id} else {}
  }

  /** What there is in the cache of a set of items; nothing is sent when that is empty. */
  function Sendable(cache: map<Item, int>, items: set<Item>): map<Item, int> {
    map d | d in items && d in cache :: cache[d]
  }

  function Listed(s: State, updated: set<Item>): set<Client> {
    set d, c | d in updated && c in Get(s.itemToClients, d) :: c
  }

  function Notify(s: State, reports: seq<Option<Report>>): State {
    s.(cache := Cached(s.cache, reports))
  }

  /** What each client listed for an updated item is sent. */
  function Deliveries(s: State, reports: seq<Option<Report>>): map<Client, map<Item, int>> {
    var updated, cache := Updated(s.cache, reports), Cached(s.cache, reports);
    map c | c in Listed(s, updated) && Sendable(cache, Get(s.clientToItems, c) * updated) != map[]
      :: Sendable(cache, Get(s.clientToItems, c) * updated)
  }

  /** Items that are not updated are cached as before; updated ones are all cached. */
  lemma {:induction false} UpdatedOrSame(cache: map<Item, int>, reports: seq<Option<Report>>)
    ensures Updated(cache, reports) <= Cached(cache, reports).Keys
    ensures forall d :: d !in Updated(cache, reports) ==>
      (d in Cached(cache, reports) <==> d in cache) && (d in cache ==> Cached(cache, reports)[d] == cache[d])
  {
    if reports != [] {
      UpdatedOrSame(cache, reports[..|reports| - 1]);
    }
  }

  /**
   Given the law, a client is sent something exactly when one of its items was updated,
   and then each updated item of its own and nothing else, with the value it has now.
   */
  lemma NotifyReachesSubscribers(s: State, reports: seq<Option<Report>>, c: Client)
    requires Law(s)
    ensures var mine := Get(s.clientToItems, c) * Updated(s.cache, reports);
            && (c in Deliveries(s, reports) <==> mine != {})
            && (c in Deliveries(s, reports) ==>
                  Deliveries(s, reports)[c].Keys == mine
                  && forall d :: d in mine ==> Deliveries(s, reports)[c][d] == Notify(s, reports).cache[d])
  {
    var updated := Updated(s.cache, reports);
    UpdatedOrSame(s.cache, reports);
    var mine := Get(s.clientToItems, c) * updated;
    assert Sendable(Cached(s.cache, reports), mine).Keys == mine;
    if d :| d in mine {
      assert d in Get(s.clientToItems, c) && d in updated;
      assert c in Get(s.itemToClients, d);
      assert c in Listed(s, updated);
    }
  }

  /** So no subscriber misses a change: an item whose cached value changed is sent to every client that has it. */
  lemma NoSubscriberMissesChange(s: State, reports: seq<Option<Report>>, c: Client, d: Item)
    requires Law(s) && d in Get(s.clientToItems, c)
    requires d in Notify(s, reports).cache
    requires d in s.cache ==> s.cache[d] != Notify(s, reports).cache[d]
    ensures c in Deliveries(s, reports) && d in Deliveries(s, reports)[c]
  {
    UpdatedOrSame(s.cache, reports);
    NotifyReachesSubscribers(s, reports, c);
    assert d in Get(s.clientToItems, c) * Updated(s.cache, reports);
  }

  /** Whatever has become of the maps: who is sent something, and what. */
  lemma NotifyReachesListed(s: State, reports: seq<Option<Report>>, c: Client)
    ensures var updated := Updated(s.cache, reports);
            && (c in Deliveries(s, reports) <==>
                  (exists d :: d in updated && c in Get(s.itemToClients, d)) && Get(s.clientToItems, c) * updated != {})
            && (c in Deliveries(s, reports) ==>
                  Deliveries(s, reports)[c].Keys == Get(s.clientToItems, c) * updated
                  && forall d :: d in Deliveries(s, reports)[c] ==>
                       d in Notify(s, reports).cache && Deliveries(s, reports)[c][d] == Notify(s, reports).cache[d])
  {
    var updated := Updated(s.cache, reports);
    UpdatedOrSame(s.cache, reports);
    var mine := Get(s.clientToItems, c) * updated;
    assert Sendable(Cached(s.cache, reports), mine).Keys == mine;
    if d :| d in updated && c in Get(s.itemToClients, d) {
      assert c in Listed(s, updated);
    }
  }

  // ---------- The cache ----------

  /** A report about item d that SystemStatus takes. */
  predicate About(report: Option<Report>, d: Item) {
    report.Some? && report.value.handled && report.value.id == d
  }

  ghost predicate LastAbout(reports: seq<Option<Report>>, i: nat, d: Item) {
    i < |reports| && About(reports[i], d) && forall j :: i < j < |reports| ==> !About(reports[j], d)
  }

  /**
   An item is in the cache exactly if it was, or a report about it was taken that could be
   made an entry; it then has the value of the last report taken, or its old one.
   */
  lemma {:induction false} CacheIs(cache: map<Item, int>, reports: seq<Option<Report>>, d: Item)
    ensures d in Cached(cache, reports) <==>
            d in cache || exists i :: 0 <= i < |reports| && About(reports[i], d) && reports[i].value.made
    ensures d in Cached(cache, reports) ==>
              forall i: nat :: LastAbout(reports, i, d) ==> Cached(cache, reports)[d] == reports[i].value.value
    ensures d in cache && (forall i :: 0 <= i < |reports| ==> !About(reports[i], d)) ==>
              d in Cached(cache, reports) && Cached(cache, reports)[d] == cache[d]
  {
    if reports != [] {
      var n := |reports| - 1;
      var front := reports[..n];
      CacheIs(cache, front, d);
      assert forall i :: 0 <= i < n ==> front[i] == reports[i];
      forall i: nat | LastAbout(reports, i, d) && d in Cached(cache, reports)
        ensures Cached(cache, reports)[d] == reports[i].value.value
      {
        if i < n {
          assert LastAbout(front, i, d);
        }
      }
    }
  }

  function ValueOf(cache: map<Item, int>, d: Item): Option<int> {
    if d in cache then Some(cache[d]) else None
  }

  /** The i-th report changes what is cached of d. */
  predicate ChangesAt(cache: map<Item, int>, reports: seq<Option<Report>>, i: nat, d: Item)
    requires i < |reports|
  {
    ValueOf(Cached(cache, reports[..i]), d) != ValueOf(Cached(cache, reports[..i + 1]), d)
  }

  lemma FrontChanges(cache: map<Item, int>, reports: seq<Option<Report>>, n: nat, i: nat, d: Item)
    requires i < n <= |reports|
    ensures ChangesAt(cache, reports[..n], i, d) <==> ChangesAt(cache, reports, i, d)
  {
    assert reports[..n][..i] == reports[..i] && reports[..n][..i + 1] == reports[..i + 1];
  }

  /** The last report changes what is cached of d exactly if it is news about d. */
  lemma LastChanges(cache: map<Item, int>, reports: seq<Option<Report>>, d: Item)
    requires reports != []
    ensures var n := |reports| - 1;
            ChangesAt(cache, reports, n, d) <==>
              IsNews(Cached(cache, reports[..n]), reports[n]) && reports[n].value.id == d
  {
    assert reports[..|reports| - 1 + 1] == reports;
  }

  /** The items that count as updated are those whose cached value some report changed, though it may change back. */
  lemma {:induction false} UpdatedIff(cache: map<Item, int>, reports: seq<Option<Report>>, d: Item)
    ensures d in Updated(cache, reports) <==> exists i :: 0 <= i < |reports| && ChangesAt(cache, reports, i, d)
  {
    if reports != [] {
      var n := |reports| - 1;
      UpdatedIff(cache, reports[..n], d);
      LastChanges(cache, reports, d);
      forall i | 0 <= i < n ensures ChangesAt(cache, reports[..n], i, d) <==> ChangesAt(cache, reports, i, d) {
        FrontChanges(cache, reports, n, i, d);
      }
    }
  }

  /** All the reports of a run, in order. */
  function Reports(requests: seq<Request>): seq<Option<Report>> {
    if requests == [] then []
    else
      var last := requests[|requests| - 1];
      Reports(requests[..|requests| - 1]) + if last.DoNotify? then last.reports else []
  }

  lemma {:induction false} CachedPlus(cache: map<Item, int>, a: seq<Option<Report>>, b: seq<Option<Report>>)
    ensures Cached(cache, a + b) == Cached(Cached(cache, a), b)
  {
    if b == [] {
      assert a + b == a;
    } else {
      var all := a + b;
      assert all[..|all| - 1] == a + b[..|b| - 1];
      CachedPlus(cache, a, b[..|b| - 1]);
    }
  }

  /** The cache at the end of a run is that of all its notifications; nothing else touches it. */
  lemma {:induction false} RunsCache(requests: seq<Request>)
    ensures Run(requests).cache == Cached(map[], Reports(requests))
  {
    if requests != [] {
      var front, r := requests[..|requests| - 1], requests[|requests| - 1];
      RunsCache(front);
      CachedPlus(map[], Reports(front), if r.DoNotify? then r.reports else []);
    }
  }
}
