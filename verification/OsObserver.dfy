/**
 SystemStatusOsObserver as it is built: the message bodies, each run by the one message
 task. The subscription object appears as the items it has been asked for.
 */
module OsObserver {
  import opened Options
  import opened SetMaps
  import opened OsObserverSpec

  class SystemStatusOsObserver {
    const mClientToDataItems: LocUnorderedSetMap<Client, Item>
    const mDataItemToClients: LocUnorderedSetMap<Item, Client>
    var mSubscriptionObj: Option<set<Item>>
    var mDataItemCache: map<Item, int>

    ghost predicate Valid()
    {
      mClientToDataItems as object != mDataItemToClients as object
    }

    ghost function Value(): State
      reads this, mClientToDataItems, mDataItemToClients
    {
      State(mClientToDataItems.mMap, mDataItemToClients.mMap, mSubscriptionObj, mDataItemCache)
    }

    constructor ()
      ensures Valid() && fresh(mClientToDataItems) && fresh(mDataItemToClients) && Value() == INIT
    {
      mClientToDataItems := new LocUnorderedSetMap();
      mDataItemToClients := new LocUnorderedSetMap();
      mSubscriptionObj := None;
      mDataItemCache := map[];
    }

    /** The calls subscribe or requestData, and unsubscribe, on the subscription object, if there is one. */
    method TellFramework(subscribe: set<Item>, unsubscribe: set<Item>)
      modifies this`mSubscriptionObj
      ensures mSubscriptionObj == Register(old(mSubscriptionObj), subscribe, unsubscribe)
    {
      if mSubscriptionObj.Some? {
        if subscribe != {} {
          mSubscriptionObj := Some(mSubscriptionObj.value + subscribe);
        }
        if unsubscribe != {} {
          mSubscriptionObj := Some(mSubscriptionObj.value - unsubscribe);
        }
        assert mSubscriptionObj.value == old(mSubscriptionObj.value) + subscribe - unsubscribe;
      }
    }

    /** What a client is sent; an empty result stands for no call. */
    method SendCachedDataItems(items: set<Item>) returns (sent: map<Item, int>)
      ensures sent == Sendable(mDataItemCache, items)
    {
      sent := map[];
      var rest := items;
      while rest != {}
        invariant rest <= items && sent == Sendable(mDataItemCache, items - rest)
        decreases rest
      {
        var each :| each in rest;
        assert items - (rest - {each}) == items - rest + {each};
        if each in mDataItemCache {
          sent := sent[each := mDataItemCache[each]];
        }
        rest := rest - {each};
      }
      assert items - rest == items;
    }

    method SetSubscriptionObject()
      requires Valid()
      modifies this
      ensures Value() == SetSubscriptionObj(old(Value()))
    {
      mSubscriptionObj := Some({});
      if mDataItemToClients.mMap != map[] {
        TellFramework(mDataItemToClients.mMap.Keys, {});
      }
      assert mSubscriptionObj.value == mDataItemToClients.mMap.Keys;
    }

    method SubscribeTo(items: set<Item>, client: Client) returns (response: map<Item, int>)
      requires Valid()
      modifies this, mClientToDataItems, mDataItemToClients
      ensures Value() == Subscribe(old(Value()), items, client)
      ensures response == Sendable(mDataItemCache, items)
    {
      var dataItemsToSubscribe := mDataItemToClients.AddAll(items, {client});
      var _ := mClientToDataItems.AddOne(client, items);
      response := SendCachedDataItems(items);
      TellFramework(dataItemsToSubscribe, {});
    }

    method Update(items: set<Item>, client: Client) returns (response: map<Item, int>)
      requires Valid() && items != {}
      modifies this, mClientToDataItems, mDataItemToClients
      ensures Value() == UpdateSubscription(old(Value()), items, client)
      ensures response == Sendable(mDataItemCache, items - Get(old(mClientToDataItems.mMap), client))
    {
      var kept, dataItems := mClientToDataItems.UpdateEntry(client, items);
      var dataItemsToUnsubscribe, _ := mDataItemToClients.TrimOrRemove(kept, {client});
      var dataItemsToSubscribe := mDataItemToClients.AddAll(dataItems, {client});
      response := SendCachedDataItems(dataItems);
      TellFramework(dataItemsToSubscribe, dataItemsToUnsubscribe);
    }

    method UnsubscribeFrom(items: set<Item>, client: Client)
      requires Valid()
      modifies this, mClientToDataItems, mDataItemToClients
      ensures Value() == Unsubscribe(old(Value()), items, client)
    {
      var _, dataItemsUnusedByClient := mClientToDataItems.TrimOrRemove({client}, items);
      GoneValsOfOne(old(mClientToDataItems.mMap), client, items);
      var dataItemsToUnsubscribe, _ := mDataItemToClients.TrimOrRemove(dataItemsUnusedByClient, {client});
      TellFramework({}, dataItemsToUnsubscribe);
    }

    method UnsubscribeFromAll(client: Client)
      requires Valid()
      modifies this, mClientToDataItems, mDataItemToClients
      ensures Value() == UnsubscribeAll(old(Value()), client)
    {
      var diByClient := mClientToDataItems.GetValSet(client);
      if diByClient != {} {
        mClientToDataItems.Remove(client);
        var dataItemsToUnsubscribe, _ := mDataItemToClients.TrimOrRemove(diByClient, {client});
        TellFramework({}, dataItemsToUnsubscribe);
      }
    }

    method UpdateCacheWith(report: Option<Report>) returns (dataItemUpdated: bool)
      modifies this`mDataItemCache
      ensures dataItemUpdated <==> IsNews(old(mDataItemCache), report)
      ensures mDataItemCache == UpdateCache(old(mDataItemCache), report)
    {
      dataItemUpdated := false;
      if report.Some? && report.value.handled {
        var d := report.value;
        if d.id !in mDataItemCache {
          if d.made {
            mDataItemCache := mDataItemCache[d.id := d.value];
            dataItemUpdated := true;
          }
        } else if mDataItemCache[d.id] != d.value {
          mDataItemCache := mDataItemCache[d.id := d.value];
          dataItemUpdated := true;
        }
      }
    }

    /** Sends each client at most one message; together they are the deliveries. */
    method HandleNotify(reports: seq<Option<Report>>) returns (sent: seq<(Client, map<Item, int>)>)
      requires Valid()
      modifies this`mDataItemCache
      ensures Value() == Notify(old(Value()), reports)
      ensures Delivers(sent, Deliveries(old(Value()), reports))
    {
      var dataItemIdsToBeSent: set<Item> := {};
      for i := 0 to |reports|
        invariant mDataItemCache == Cached(old(mDataItemCache), reports[..i])
        invariant dataItemIdsToBeSent == Updated(old(mDataItemCache), reports[..i])
      {
        assert reports[..i + 1][..i] == reports[..i];
        var updated := UpdateCacheWith(reports[i]);
        if updated {
          dataItemIdsToBeSent := dataItemIdsToBeSent + {reports[i].value.id};
        }
      }
      assert reports[..|reports|] == reports;
      var clientSet := ClientsOf(dataItemIdsToBeSent);
      sent := SendTo(clientSet, dataItemIdsToBeSent);
    }

    method ClientsOf(updated: set<Item>) returns (clientSet: set<Client>)
      requires Valid()
      ensures clientSet == Listed(Value(), updated)
    {
      clientSet := {};
      var rest := updated;
      while rest != {}
        invariant rest <= updated && clientSet == Listed(Value(), updated - rest)
        decreases rest
      {
        var each :| each in rest;
        assert updated - (rest - {each}) == updated - rest + {each};
        clientSet := clientSet + mDataItemToClients.GetValSet(each);
        rest := rest - {each};
      }
      assert updated - rest == updated;
    }

    method SendTo(clientSet: set<Client>, updated: set<Item>) returns (sent: seq<(Client, map<Item, int>)>)
      requires Valid()
      ensures Delivers(sent, ToSend(Value(), clientSet, updated))
    {
      sent := [];
      var rest := clientSet;
      while rest != {}
        invariant rest <= clientSet && Delivers(sent, ToSend(Value(), clientSet - rest, updated))
        decreases rest
      {
        var client :| client in rest;
        var items := OfInterest(mClientToDataItems.GetValSet(client), updated);
        var message := SendCachedDataItems(items);
        DeliverMore(sent, Value(), clientSet - rest, client, updated);
        assert clientSet - (rest - {client}) == clientSet - rest + {client};
        if message != map[] {
          sent := sent + [(client, message)];
        }
        rest := rest - {client};
      }
      assert clientSet - rest == clientSet;
    }

    /** The loop that erases from a client's items those that were not updated. */
    method OfInterest(dataItems: set<Item>, updated: set<Item>) returns (items: set<Item>)
      ensures items == dataItems * updated
    {
      items := dataItems;
      var rest := dataItems;
      while rest != {}
        invariant rest <= dataItems && items == (dataItems - rest) * updated + rest
        decreases rest
      {
        var each :| each in rest;
        if each !in updated {
          items := items - {each};
        }
        rest := rest - {each};
      }
    }
  }

  lemma GoneValsOfOne<K, V>(m: SetMap<K, V>, key: K, vals: set<V>)
    ensures GoneVals(m, {key}, vals) == Get(m, key) * vals
  {
    forall v ensures v in GoneVals(m, {key}, vals) <==> v in Get(m, key) * vals {
      if v in Get(m, key) * vals {
        assert key in {key} && key in m && v in m[key];
      }
    }
  }

  /** The messages are the entries of the map, each sent once. */
  ghost predicate Delivers(sent: seq<(Client, map<Item, int>)>, entries: map<Client, map<Item, int>>) {
    && (forall i :: 0 <= i < |sent| ==> sent[i].0 in entries && entries[sent[i].0] == sent[i].1)
    && (forall i, j :: 0 <= i < j < |sent| ==> sent[i].0 != sent[j].0)
    && (forall c :: c in entries ==> (c, entries[c]) in sent)
  }

  ghost function ToSend(s: State, clients: set<Client>, updated: set<Item>): map<Client, map<Item, int>> {
    map c | c in clients && Sendable(s.cache, Get(s.clientToItems, c) * updated) != map[]
      :: Sendable(s.cache, Get(s.clientToItems, c) * updated)
  }

  lemma DeliverMore(sent: seq<(Client, map<Item, int>)>, s: State, done: set<Client>, c: Client, updated: set<Item>)
    requires c !in done && Delivers(sent, ToSend(s, done, updated))
    ensures var message := Sendable(s.cache, Get(s.clientToItems, c) * updated);
            Delivers(if message == map[] then sent else sent + [(c, message)], ToSend(s, done + {c}, updated))
  {
    var message := Sendable(s.cache, Get(s.clientToItems, c) * updated);
    var t, t' := ToSend(s, done, updated), ToSend(s, done + {c}, updated);
    if message == map[] {
      assert t == t';
    } else {
      assert t' == t[c := message] && c !in t;
    }
  }
}
