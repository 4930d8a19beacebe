/** LocUnorderedSetMap: a map from keys to non-empty sets, with the operations the observer uses. */
module SetMaps {

  type SetMap<K, V> = map<K, set<V>>

  // ---------- What the operations compute ----------

  function Get<K, V>(m: SetMap<K, V>, key: K): set<V> {
    if key in m then m[key] else {}
  }

  /** Takes rVals out of the entries of keys, and drops the entries this empties. */
  function Trim<K, V>(m: SetMap<K, V>, keys: set<K>, rVals: set<V>): SetMap<K, V> {
    map k | k in m && (k in keys ==> m[k] - rVals != {}) :: if k in keys then m[k] - rVals else m[k]
  }

  function GoneKeys<K, V>(m: SetMap<K, V>, keys: set<K>, rVals: set<V>): set<K> {
    set k | k in keys && k in m && m[k] - rVals == {}
  }

  ghost function GoneVals<K, V>(m: SetMap<K, V>, keys: set<K>, rVals: set<V>): set<V> {
    set v | v in rVals && exists k :: k in keys && k in m && v in m[k]
  }

  /** Adds newVals to the entries of keys, new or old. */
  function Add<K, V>(m: SetMap<K, V>, keys: set<K>, newVals: set<V>): SetMap<K, V> {
    if newVals == {} then m
    else map k | k in m.Keys + keys :: if k in keys then Get(m, k) + newVals else m[k]
  }

  function NewKeys<K, V>(m: SetMap<K, V>, keys: set<K>, newVals: set<V>): set<K> {
    if newVals == {} then {} else keys - m.Keys
  }

  /** update: the new map; what it returns; and what it leaves of newVals. */
  function Update<K, V>(m: SetMap<K, V>, key: K, newVals: set<V>): (SetMap<K, V>, set<V>, set<V>) {
    if newVals == {} then (m - {key}, {}, {})
    else (m[key := newVals], Get(m, key) * newVals, newVals - Get(m, key))
  }

  // ---------- As it is built ----------

  class LocUnorderedSetMap<K(==), V(==)> {
    var mMap: SetMap<K, V>

    constructor ()
      ensures mMap == map[]
    {
      mMap := map[];
    }

    function GetValSet(key: K): (vals: set<V>)
      reads this
      ensures vals == Get(mMap, key)
    {
      if key in mMap then mMap[key] else {}
    }

    method Remove(key: K)
      modifies this
      ensures mMap == old(mMap) - {key}
    {
      mMap := mMap - {key};
    }

    /** The one-key step of trimOrRemove; says whether the entry was dropped, and what was taken from it. */
    method TrimOne(key: K, rVals: set<V>) returns (removed: bool, gone: set<V>)
      requires key in mMap
      modifies this
      ensures gone == old(mMap)[key] * rVals && (removed <==> old(mMap)[key] - rVals == {})
      ensures mMap == if removed then old(mMap) - {key} else old(mMap)[key := old(mMap)[key] - rVals]
    {
      gone := {};
      var rest := rVals;
      var from := mMap[key];
      while rest != {}
        invariant rest <= rVals
        invariant from == mMap[key] - (rVals - rest) && gone == mMap[key] * (rVals - rest)
        decreases rest
      {
        var val :| val in rest;
        if val in from {
          gone := gone + {val};
        }
        from := from - {val};
        rest := rest - {val};
      }
      assert rVals - rest == rVals;
      removed := from == {};
      if removed {
        mMap := mMap - {key};
      } else {
        mMap := mMap[key := from];
      }
    }

    method TrimOrRemove(keys: set<K>, rVals: set<V>) returns (goneKeys: set<K>, goneVals: set<V>)
      modifies this
      ensures mMap == Trim(old(mMap), keys, rVals)
      ensures goneKeys == GoneKeys(old(mMap), keys, rVals) && goneVals == GoneVals(old(mMap), keys, rVals)
    {
      goneKeys, goneVals := {}, {};
      ghost var m := mMap;
      var rest := keys;
      while rest != {}
        invariant rest <= keys
        invariant mMap == Trim(m, keys - rest, rVals)
        invariant goneKeys == GoneKeys(m, keys - rest, rVals)
        invariant goneVals == GoneVals(m, keys - rest, rVals)
        decreases rest
      {
        var key :| key in rest;
        ghost var done := keys - rest;
        assert keys - (rest - {key}) == done + {key};
        TrimMore(m, done, key, rVals);
        if key in mMap {
          var removed, gone := TrimOne(key, rVals);
          goneVals := goneVals + gone;
          if removed {
            goneKeys := goneKeys + {key};
          }
        }
        rest := rest - {key};
      }
      assert keys - rest == keys;
    }

    method AddOne(key: K, newVals: set<V>) returns (newEntryAdded: bool)
      modifies this
      ensures mMap == Add(old(mMap), {key}, newVals)
      ensures newEntryAdded <==> newVals != {} && key !in old(mMap)
    {
      newEntryAdded := false;
      if newVals != {} {
        AddOneIs(mMap, key, newVals);
        if key in mMap {
          mMap := mMap[key := mMap[key] + newVals];
        } else {
          assert {} + newVals == newVals;
          mMap := mMap[key := newVals];
          newEntryAdded := true;
        }
      }
    }

    method AddAll(keys: set<K>, newVals: set<V>) returns (newKeys: set<K>)
      modifies this
      ensures mMap == Add(old(mMap), keys, newVals)
      ensures newKeys == NewKeys(old(mMap), keys, newVals)
    {
      newKeys := {};
      ghost var m := mMap;
      var rest := keys;
      while rest != {}
        invariant rest <= keys
        invariant mMap == Add(m, keys - rest, newVals)
        invariant newKeys == NewKeys(m, keys - rest, newVals)
        decreases rest
      {
        var key :| key in rest;
        ghost var done := keys - rest;
        assert keys - (rest - {key}) == done + {key};
        var added := AddOne(key, newVals);
        if added {
          newKeys := newKeys + {key};
        }
        rest := rest - {key};
      }
      assert keys - rest == keys;
    }

    /** Takes what two sets have in common out of both. */
    static method RemoveAndReturnInterset(s1: set<V>, s2: set<V>) returns (common: set<V>, rest1: set<V>, rest2: set<V>)
      ensures common == s1 * s2 && rest1 == s1 - s2 && rest2 == s2 - s1
    {
      common, rest1, rest2 := {}, s1, s2;
      var left := s2;
      while left != {}
        invariant left <= s2
        invariant common == s1 * (s2 - left) && rest1 == s1 - (s2 - left) && rest2 == s2 - common
        decreases left
      {
        var b :| b in left;
        if b in rest1 {
          common := common + {b};
          rest1 := rest1 - {b};
          rest2 := rest2 - {b};
        }
        left := left - {b};
      }
      assert s2 - left == s2;
    }

    method UpdateEntry(key: K, newVals: set<V>) returns (goneVals: set<V>, restVals: set<V>)
      modifies this
      ensures (mMap, goneVals, restVals) == Update(old(mMap), key, newVals)
    {
      goneVals, restVals := {}, {};
      if newVals == {} {
        mMap := mMap - {key};
      } else {
        var curVals := GetValSet(key);
        mMap := mMap[key := newVals];
        var gone, _, rest := RemoveAndReturnInterset(curVals, newVals);
        goneVals, restVals := gone, rest;
      }
    }
  }

  lemma AddOneIs<K, V>(m: SetMap<K, V>, key: K, newVals: set<V>)
    requires newVals != {}
    ensures Add(m, {key}, newVals) == m[key := Get(m, key) + newVals]
  {
    var a, b := Add(m, {key}, newVals), m[key := Get(m, key) + newVals];
    assert a.Keys == b.Keys;
    assert forall k :: k in a ==> a[k] == b[k];
  }

  lemma TrimMore<K, V>(m: SetMap<K, V>, done: set<K>, key: K, rVals: set<V>)
    requires key !in done
    ensures var t := Trim(m, done, rVals);
            && (key in t <==> key in m) && (key in m ==> t[key] == m[key])
            && Trim(m, done + {key}, rVals)
               == (if key !in m then t else if m[key] - rVals == {} then t - {key} else t[key := m[key] - rVals])
    ensures GoneVals(m, done + {key}, rVals) == GoneVals(m, done, rVals) + Get(m, key) * rVals
  {
    forall v ensures v in GoneVals(m, done + {key}, rVals) <==> v in GoneVals(m, done, rVals) + Get(m, key) * rVals {
      if v in rVals && exists k :: k in done + {key} && k in m && v in m[k] {
        var k :| k in done + {key} && k in m && v in m[k];
        if k != key {
          assert k in done && k in m && v in m[k];
        }
      }
      if v in rVals && key in m && v in m[key] {
        assert key in done + {key};
      }
    }
  }
}
