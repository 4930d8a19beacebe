/**
 BiDict, as a value: client ids to sessions, sessions to client ids, and what is kept with
 each session. An std::map read with [] makes an entry of 0 for a key it has not; that is
 followed here. zero is what a T cleared to zero bytes is.
 */
module BiDictSpec {

  datatype Dict<T> = Dict(forward: map<nat, nat>, backward: map<nat, nat>, ext: map<nat, T>)

  function Empty<T>(): Dict<T> { Dict(map[], map[], map[]) }

  function Find(m: map<nat, nat>, key: nat): nat {
    if key in m then m[key] else 0
  }

  function Set<T>(d: Dict<T>, id: nat, session: nat, ext: T): Dict<T> {
    Dict(d.forward[id := session], d.backward[session := id], d.ext[session := ext])
  }

  function RmById<T>(d: Dict<T>, id: nat): Dict<T> {
    var session := Find(d.forward, id);
    Dict(d.forward - {id}, d.backward - {session}, d.ext - {session})
  }

  /** For a session that is not there it is id 0 that is taken out of the forward map. */
  function RmBySession<T>(d: Dict<T>, session: nat): Dict<T> {
    Dict(d.forward - {Find(d.backward, session)}, d.backward - {session}, d.ext - {session})
  }

  function ExtBySession<T>(d: Dict<T>, session: nat, zero: T): T {
    if session in d.ext then d.ext[session] else zero
  }

  /** getExtById leaves an entry behind for an id it does not know. */
  function ExtById<T>(d: Dict<T>, id: nat, zero: T): (T, Dict<T>) {
    var session := Find(d.forward, id);
    (if session > 0 then ExtBySession(d, session, zero) else zero,
     if id in d.forward then d else d.(forward := d.forward[id := 0]))
  }

  // ---------- The law ----------

  /** The two maps are inverse to each other, and something is kept with exactly the sessions there are. */
  ghost predicate Agrees<T>(d: Dict<T>) {
    && (forall id :: id in d.forward ==> d.forward[id] in d.backward && d.backward[d.forward[id]] == id)
    && (forall s :: s in d.backward ==> d.backward[s] in d.forward && d.forward[d.backward[s]] == s)
    && d.ext.Keys == d.backward.Keys
  }

  /** Sessions are above 0, which stands for none. */
  ghost predicate Lawful<T>(d: Dict<T>) {
    Agrees(d) && 0 !in d.backward
  }

  predicate FreshPair<T>(d: Dict<T>, id: nat, session: nat) {
    id !in d.forward && session !in d.backward
  }

  predicate Paired<T>(d: Dict<T>, id: nat, session: nat) {
    id in d.forward && d.forward[id] == session
  }

  /** set keeps the law exactly for a pair that is all new or already a pair. */
  lemma SetKeepsIff<T>(d: Dict<T>, id: nat, session: nat, ext: T)
    requires Lawful(d) && session > 0
    ensures Lawful(Set(d, id, session, ext)) <==> FreshPair(d, id, session) || Paired(d, id, session)
  {
    var d' := Set(d, id, session, ext);
    if id in d.forward && d.forward[id] != session {
      assert d.forward[id] in d'.backward && d'.backward[d.forward[id]] == id && d'.forward[id] == session;
    } else if id !in d.forward && session in d.backward {
      var other := d.backward[session];
      assert other in d'.forward && d'.forward[other] == session && d'.backward[session] == id;
    }
  }

  /** rmById and rmBySession keep the law when they know what they are to remove, and else when 0 is not an id. */
  lemma RmKeepsIff<T>(d: Dict<T>, id: nat, session: nat)
    requires Lawful(d)
    ensures Lawful(RmById(d, id))
    ensures Lawful(RmBySession(d, session)) <==> session in d.backward || 0 !in d.forward
    ensures Paired(d, id, session) ==> RmById(d, id) == RmBySession(d, session)
  {
    if session !in d.backward && 0 in d.forward {
      var d' := RmBySession(d, session);
      assert d.forward[0] in d'.backward && d'.backward[d.forward[0]] == 0;
    }
  }

  /** Looking up what is kept with an id keeps the law exactly when the id is known. */
  lemma ExtByIdKeepsIff<T>(d: Dict<T>, id: nat, zero: T)
    requires Lawful(d)
    ensures Lawful(ExtById(d, id, zero).1) <==> id in d.forward
  {
    if id !in d.forward {
      assert ExtById(d, id, zero).1.forward[id] == 0;
    }
  }

  /** What the lookups answer after a set: the new pair for its id and session, and for others what they did. */
  lemma SetAnswers<T>(d: Dict<T>, id: nat, session: nat, ext: T, zero: T, id': nat, session': nat)
    requires session > 0
    ensures var d' := Set(d, id, session, ext);
            && Find(d'.forward, id) == session && Find(d'.backward, session) == id
            && ExtBySession(d', session, zero) == ext && ExtById(d', id, zero).0 == ext
            && (id' != id ==> Find(d'.forward, id') == Find(d.forward, id'))
            && (session' != session ==>
                  Find(d'.backward, session') == Find(d.backward, session')
                  && ExtBySession(d', session', zero) == ExtBySession(d, session', zero))
  {
  }

  /** After either removal of a pair, its id and its session are unknown, and others are answered as before. */
  lemma RmAnswers<T>(d: Dict<T>, id: nat, session: nat, zero: T, id': nat, session': nat)
    requires Lawful(d) && Paired(d, id, session)
    ensures var d' := RmById(d, id);
            && d' == RmBySession(d, session)
            && Find(d'.forward, id) == 0 && Find(d'.backward, session) == 0 && ExtBySession(d', session, zero) == zero
            && (id' != id ==> Find(d'.forward, id') == Find(d.forward, id'))
            && (session' != session ==>
                  Find(d'.backward, session') == Find(d.backward, session')
                  && ExtBySession(d', session', zero) == ExtBySession(d, session', zero))
  {
    RmKeepsIff(d, id, session);
  }

  // ---------- Geofences ----------

  function SetAll<T>(d: Dict<T>, ids: seq<nat>, sessions: seq<nat>, exts: seq<T>): Dict<T>
    requires |ids| == |sessions| == |exts|
  {
    if ids == [] then d
    else
      var n := |ids| - 1;
      Set(SetAll(d, ids[..n], sessions[..n], exts[..n]), ids[n], sessions[n], exts[n])
  }

  /** What removing a list of ids leaves, what it takes out, and the sessions it tells the engine of. */
  datatype Split<T> = Split(kept: Dict<T>, removed: Dict<T>, sessions: seq<nat>)

  function RemoveOne<T>(p: Split<T>, id: nat, zero: T): Split<T> {
    var session := Find(p.kept.forward, id);
    if session > 0 then
      Split(RmBySession(p.kept, session),
            Set(p.removed, id, session, ExtBySession(p.kept, session, zero)),
            p.sessions + [session])
    else p
  }

  function RemoveAll<T>(d: Dict<T>, ids: seq<nat>, zero: T): Split<T> {
    if ids == [] then Split(d, Empty(), [])
    else RemoveOne(RemoveAll(d, ids[..|ids| - 1], zero), ids[|ids| - 1], zero)
  }

  function Listed(ids: seq<nat>): set<nat> {
    set id | id in ids
  }

  /** The part of a dictionary about the listed ids, or about the others. */
  function Part<T>(d: Dict<T>, ids: set<nat>, listed: bool): Dict<T> {
    Dict(map id | id in d.forward && (id in ids <==> listed) :: d.forward[id],
         map s | s in d.backward && (d.backward[s] in ids <==> listed) :: d.backward[s],
         map s | s in d.ext && s in d.backward && (d.backward[s] in ids <==> listed) :: d.ext[s])
  }

  /** The sessions are those of the dictionary, each once. */
  ghost predicate Lists<T>(sessions: seq<nat>, d: Dict<T>) {
    && (forall i :: 0 <= i < |sessions| ==> sessions[i] in d.backward)
    && (forall s :: s in d.backward ==> s in sessions)
    && Distinct(sessions)
  }

  ghost predicate Distinct(s: seq<nat>) {
    forall i, j :: 0 <= i < j < |s| ==> s[i] != s[j]
  }

  /**
   Removing a list of ids splits the dictionary in two, whatever unknown ids and
   repetitions the list has: the listed ids are removed, with all that is kept with them,
   and all others stay.
   */
  lemma {:induction false} RemoveAllSplits<T>(d: Dict<T>, ids: seq<nat>, zero: T)
    requires Lawful(d)
    ensures RemoveAll(d, ids, zero).kept == Part(d, Listed(ids), false)
    ensures RemoveAll(d, ids, zero).removed == Part(d, Listed(ids), true)
    ensures Lists(RemoveAll(d, ids, zero).sessions, Part(d, Listed(ids), true))
  {
    if ids == [] {
      NoneListed(d);
    } else {
      var front, id := ids[..|ids| - 1], ids[|ids| - 1];
      RemoveAllSplits(d, front, zero);
      assert Listed(ids) == Listed(front) + {id} by {
        assert ids == front + [id];
      }
      RemoveOneIs(d, Listed(front), RemoveAll(d, front, zero), id, zero);
    }
  }

  lemma RemoveOneIs<T>(d: Dict<T>, ids: set<nat>, p: Split<T>, id: nat, zero: T)
    requires Lawful(d) && p.kept == Part(d, ids, false) && p.removed == Part(d, ids, true)
    requires Lists(p.sessions, p.removed)
    ensures RemoveOne(p, id, zero).kept == Part(d, ids + {id}, false)
    ensures RemoveOne(p, id, zero).removed == Part(d, ids + {id}, true)
    ensures Lists(RemoveOne(p, id, zero).sessions, Part(d, ids + {id}, true))
  {
    if id in d.forward && id !in ids {
      assert Find(p.kept.forward, id) == d.forward[id] > 0;
      OneMoreListed(d, ids, id);
      ListsOneMore(d, ids, id, p.sessions);
    } else {
      SamePart(d, ids, id);
      assert Find(p.kept.forward, id) == 0;
    }
  }

  lemma NoneListed<T>(d: Dict<T>)
    requires Lawful(d)
    ensures Part(d, {}, false) == d && Part(d, {}, true) == Empty()
  {
    var k := Part(d, {}, false);
    assert k.forward == d.forward && k.backward == d.backward && k.ext == d.ext;
  }

  lemma OneMoreListed<T>(d: Dict<T>, ids: set<nat>, id: nat)
    requires Lawful(d) && id in d.forward && id !in ids
    ensures var session := d.forward[id];
            && session in d.ext && session in Part(d, ids, false).ext
            && Part(d, ids + {id}, false) == RmBySession(Part(d, ids, false), session)
            && Part(d, ids + {id}, true) == Set(Part(d, ids, true), id, session, d.ext[session])
  {
    OneLessKept(d, ids, id);
    OneMoreTaken(d, ids, id);
  }

  lemma OneMoreTaken<T>(d: Dict<T>, ids: set<nat>, id: nat)
    requires Lawful(d) && id in d.forward && id !in ids
    ensures d.forward[id] in d.ext
    ensures Part(d, ids + {id}, true) == Set(Part(d, ids, true), id, d.forward[id], d.ext[d.forward[id]])
  {
    var session := d.forward[id];
    assert session in d.ext;
    var a, b := Part(d, ids + {id}, true), Set(Part(d, ids, true), id, session, d.ext[session]);
    assert forall s :: s in d.backward ==> (d.backward[s] == id <==> s == session);
    assert a.forward == b.forward;
    assert a.backward == b.backward;
    assert a.ext == b.ext;
  }

  lemma OneLessKept<T>(d: Dict<T>, ids: set<nat>, id: nat)
    requires Lawful(d) && id in d.forward && id !in ids
    ensures Part(d, ids + {id}, false) == RmBySession(Part(d, ids, false), d.forward[id])
  {
    var a, b := Part(d, ids + {id}, false), RmBySession(Part(d, ids, false), d.forward[id]);
    assert a.forward == b.forward;
    assert a.backward == b.backward;
    assert a.ext == b.ext;
  }

  lemma ListsOneMore<T>(d: Dict<T>, ids: set<nat>, id: nat, sessions: seq<nat>)
    requires Lawful(d) && id in d.forward && id !in ids && Lists(sessions, Part(d, ids, true))
    ensures Lists(sessions + [d.forward[id]], Part(d, ids + {id}, true))
  {
    OneMoreListed(d, ids, id);
    assert d.forward[id] !in Part(d, ids, true).backward;
  }

  lemma SamePart<T>(d: Dict<T>, ids: set<nat>, id: nat)
    requires Lawful(d) && (id !in d.forward || id in ids)
    ensures Part(d, ids + {id}, false) == Part(d, ids, false) && Part(d, ids + {id}, true) == Part(d, ids, true)
  {
    assert forall s :: s in d.backward ==> d.backward[s] != id || id in ids;
  }

  /** Both parts are lawful, have nothing in common, and make up the dictionary: nothing is lost. */
  lemma PartsConserve<T>(d: Dict<T>, ids: set<nat>)
    requires Lawful(d)
    ensures Lawful(Part(d, ids, false)) && Lawful(Part(d, ids, true))
    ensures Part(d, ids, false).forward.Keys !! Part(d, ids, true).forward.Keys
    ensures Part(d, ids, false).backward.Keys !! Part(d, ids, true).backward.Keys
    ensures d == Both(Part(d, ids, false), Part(d, ids, true))
  {
    PartIsLawful(d, ids, false);
    PartIsLawful(d, ids, true);
    PartsAreAll(d, ids);
  }

  lemma PartIsLawful<T>(d: Dict<T>, ids: set<nat>, listed: bool)
    requires Lawful(d)
    ensures Lawful(Part(d, ids, listed))
  {
  }

  lemma PartsAreAll<T>(d: Dict<T>, ids: set<nat>)
    requires Lawful(d)
    ensures d == Both(Part(d, ids, false), Part(d, ids, true))
  {
    var k, r := Part(d, ids, false), Part(d, ids, true);
    Joins(d.forward, k.forward, r.forward);
    Joins(d.backward, k.backward, r.backward);
    Joins(d.ext, k.ext, r.ext);
  }

  lemma Joins<V>(m: map<nat, V>, a: map<nat, V>, b: map<nat, V>)
    requires forall i :: i in m ==> i in a || i in b
    requires forall i :: i in a ==> i in m && a[i] == m[i]
    requires forall i :: i in b ==> i in m && b[i] == m[i]
    ensures m == a + b
  {
  }

  function Both<T>(k: Dict<T>, r: Dict<T>): Dict<T> {
    Dict(k.forward + r.forward, k.backward + r.backward, k.ext + r.ext)
  }

  /** Adding distinct new ids with distinct new sessions keeps the law. */
  lemma {:induction false} SetAllKeeps<T>(d: Dict<T>, ids: seq<nat>, sessions: seq<nat>, exts: seq<T>)
    requires |ids| == |sessions| == |exts| && Lawful(d)
    requires Distinct(ids) && Distinct(sessions) && 0 !in sessions
    requires forall i :: 0 <= i < |ids| ==> FreshPair(d, ids[i], sessions[i])
    ensures Lawful(SetAll(d, ids, sessions, exts))
    ensures forall id :: id in SetAll(d, ids, sessions, exts).forward <==> id in d.forward || id in ids
    ensures forall s :: s in SetAll(d, ids, sessions, exts).backward <==> s in d.backward || s in sessions
  {
    if ids != [] {
      var n := |ids| - 1;
      var d' := SetAll(d, ids[..n], sessions[..n], exts[..n]);
      SetAllKeeps(d, ids[..n], sessions[..n], exts[..n]);
      LastIsNew(ids);
      LastIsNew(sessions);
      SetKeepsIff(d', ids[n], sessions[n], exts[n]);
    }
  }

  /** Each id gets the session and what is kept with it at the same place of the lists. */
  lemma {:induction false} SetAllPairs<T>(d: Dict<T>, ids: seq<nat>, sessions: seq<nat>, exts: seq<T>, i: nat)
    requires |ids| == |sessions| == |exts| && i < |ids| && Distinct(ids) && Distinct(sessions)
    ensures var d' := SetAll(d, ids, sessions, exts);
            Paired(d', ids[i], sessions[i]) && sessions[i] in d'.ext && d'.ext[sessions[i]] == exts[i]
  {
    var n := |ids| - 1;
    if i < n {
      SetAllPairs(d, ids[..n], sessions[..n], exts[..n], i);
    }
  }

  /** And the ids that were there keep theirs. */
  lemma {:induction false} SetAllSpares<T>(d: Dict<T>, ids: seq<nat>, sessions: seq<nat>, exts: seq<T>, id: nat)
    requires |ids| == |sessions| == |exts| && Lawful(d) && id in d.forward && id !in ids && d.forward[id] !in sessions
    ensures var d' := SetAll(d, ids, sessions, exts);
            Paired(d', id, d.forward[id]) && d.forward[id] in d'.ext && d'.ext[d.forward[id]] == d.ext[d.forward[id]]
  {
    if ids != [] {
      var n := |ids| - 1;
      assert ids[n] in ids && sessions[n] in sessions;
      SetAllSpares(d, ids[..n], sessions[..n], exts[..n], id);
    }
  }

  lemma LastIsNew(s: seq<nat>)
    requires s != [] && Distinct(s)
    ensures s[|s| - 1] !in s[..|s| - 1] && Distinct(s[..|s| - 1])
    ensures forall x :: x in s <==> x in s[..|s| - 1] || x == s[|s| - 1]
  {
    assert s == s[..|s| - 1] + [s[|s| - 1]];
  }

  /** Adding geofences and removing them again gives the dictionary there was. */
  lemma AddThenRemove<T>(d: Dict<T>, ids: seq<nat>, sessions: seq<nat>, exts: seq<T>, zero: T)
    requires |ids| == |sessions| == |exts| && Lawful(d)
    requires Distinct(ids) && Distinct(sessions) && 0 !in sessions
    requires forall i :: 0 <= i < |ids| ==> FreshPair(d, ids[i], sessions[i])
    ensures RemoveAll(SetAll(d, ids, sessions, exts), ids, zero).kept == d
  {
    var added := SetAll(d, ids, sessions, exts);
    SetAllKeeps(d, ids, sessions, exts);
    RemoveAllSplits(added, ids, zero);
    AddedIsOutside(d, ids, sessions, exts, Listed(ids));
    OthersOnly(d, Listed(ids));
  }

  lemma OthersOnly<T>(d: Dict<T>, ids: set<nat>)
    requires Lawful(d) && forall id :: id in d.forward ==> id !in ids
    ensures Part(d, ids, false) == d
  {
    var rest := Part(d, ids, false);
    assert rest.forward == d.forward;
    assert rest.backward == d.backward;
    assert rest.ext == d.ext;
  }

  lemma {:induction false} AddedIsOutside<T>(d: Dict<T>, ids: seq<nat>, sessions: seq<nat>, exts: seq<T>,
                                             listed: set<nat>)
    requires |ids| == |sessions| == |exts| && Lawful(d)
    requires Distinct(ids) && Distinct(sessions) && 0 !in sessions
    requires forall i :: 0 <= i < |ids| ==> FreshPair(d, ids[i], sessions[i]) && ids[i] in listed
    ensures Part(SetAll(d, ids, sessions, exts), listed, false) == Part(d, listed, false)
  {
    if ids != [] {
      var n := |ids| - 1;
      AddedIsOutside(d, ids[..n], sessions[..n], exts[..n], listed);
      LastIsNew(ids);
      LastIsNew(sessions);
      SetAllKeeps(d, ids[..n], sessions[..n], exts[..n]);
      SetIsOutside(SetAll(d, ids[..n], sessions[..n], exts[..n]), ids[n], sessions[n], exts[n], listed);
    }
  }

  lemma SetIsOutside<T>(d: Dict<T>, id: nat, session: nat, ext: T, listed: set<nat>)
    requires Lawful(d) && FreshPair(d, id, session) && id in listed
    ensures Part(Set(d, id, session, ext), listed, false) == Part(d, listed, false)
  {
    var a, b := Part(Set(d, id, session, ext), listed, false), Part(d, listed, false);
    assert a.forward == b.forward;
    assert a.backward == b.backward;
    assert a.ext == b.ext;
  }

  /** The removed part answers for the engine's response: each session told leads back to its id. */
  lemma RemovedAnswers<T>(d: Dict<T>, ids: seq<nat>, zero: T, i: nat)
    requires Lawful(d) && i < |RemoveAll(d, ids, zero).sessions|
    ensures var p := RemoveAll(d, ids, zero); var id := Find(p.removed.backward, p.sessions[i]);
            id in ids && Paired(d, id, p.sessions[i]) && id !in p.kept.forward
  {
    RemoveAllSplits(d, ids, zero);
  }
}
