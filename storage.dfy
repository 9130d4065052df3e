/**
 * The in-memory session store of server/storage.ts. `Store` is the store's
 * state as a value, with one function per operation; `MemStorage` is the
 * class the server holds, whose methods update its fields in place and are
 * proved to agree with those functions.
 */
module Storage {
  import opened Wrappers
  import opened Schema

  /**
   * The store's state: the Map from id to record, the Map's key order
   * (a JavaScript Map iterates in insertion order, and `set` on a key
   * already present keeps its place) and the next id to issue.
   */
  datatype Store = Store(records: map<int, Session>, order: seq<int>, nextId: int)

  /**
   * What every reachable state satisfies: ids 1 .. nextId-1 have been issued,
   * each exactly once, in that order, and each record carries its own key.
   */
  ghost predicate WellFormed(st: Store)
  {
    && st.nextId >= 1
    && |st.order| == st.nextId - 1
    && (forall i :: 0 <= i < |st.order| ==> st.order[i] == i + 1)
    && (forall k :: k in st.records <==> 1 <= k < st.nextId)
    && (forall k :: k in st.records ==> st.records[k].id == k)
  }

  /** The state the constructor sets up. */
  function Empty(): (st: Store)
    ensures WellFormed(st)
    ensures st.records == map[] && st.nextId == 1
  {
    Store(map[], [], 1)
  }

  datatype Created = Created(store: Store, session: Session)

  /**
   * createSession: the record copies the payload, gets the next id and has
   * both timestamps at `now`; it is stored under that id and appended to the
   * key order.
   */
  function Create(st: Store, ins: InsertSession, now: int): (r: Created)
    requires WellFormed(st)
    ensures WellFormed(r.store)
    ensures r.session.id == st.nextId && r.store.nextId == st.nextId + 1
    ensures r.session.id !in st.records
    ensures forall k :: k in st.records ==> k < r.session.id
    ensures r.store.records == st.records[r.session.id := r.session]
    ensures r.store.order == st.order + [r.session.id]
    ensures r.session.mood == ins.mood && r.session.step == ins.step && r.session.completed == ins.completed
    ensures r.session.timestampCreated == r.session.timestampUpdated == now
  {
    var id := st.nextId;
    var s := Session(id, ins.mood, ins.step, ins.completed, now, now);
    Created(Store(st.records[id := s], st.order + [id], id + 1), s)
  }

  /**
   * The record updateSession builds: `...session, ...updateSession` and a
   * fresh timestampUpdated. Only fields present in the patch change; the
   * payload type has no id, mood or timestampCreated, so those always stay.
   */
  function Merge(s: Session, p: UpdateSession, now: int): (r: Session)
    ensures r.id == s.id && r.mood == s.mood && r.timestampCreated == s.timestampCreated
    ensures r.timestampUpdated == now
    ensures p.step.Keep? ==> r.step == s.step
    ensures p.step.Put? ==> r.step == p.step.value
    ensures p.completed.Keep? ==> r.completed == s.completed
    ensures p.completed.Put? ==> r.completed == Some(p.completed.value)
  {
    s.(step := Apply(p.step, s.step),
       completed := if p.completed.Put? then Some(p.completed.value) else s.completed,
       timestampUpdated := now)
  }

  datatype Updated = Updated(store: Store, session: Option<Session>)

  /**
   * updateSession: an absent id gives undefined and leaves the store as it
   * was; a present id gets the merged record, in the same place of the key
   * order, and nothing else changes.
   */
  function Update(st: Store, id: int, p: UpdateSession, now: int): (r: Updated)
    requires WellFormed(st)
    ensures WellFormed(r.store)
    ensures id !in st.records ==> r.session.None? && r.store == st
    ensures id in st.records ==> r.session == Some(Merge(st.records[id], p, now))
    ensures id in st.records ==> r.store.records == st.records[id := r.session.value]
    ensures r.store.records.Keys == st.records.Keys
    ensures r.store.order == st.order && r.store.nextId == st.nextId
  {
    if id !in st.records then Updated(st, None)
    else
      var s := Merge(st.records[id], p, now);
      Updated(st.(records := st.records[id := s]), Some(s))
  }

  /** getSession: the record stored under `id`, if any; in a reachable store, exactly the ids issued so far have one. */
  function Get(st: Store, id: int): (r: Option<Session>)
    ensures r.Some? <==> id in st.records
    ensures r.Some? ==> r.value == st.records[id]
    ensures WellFormed(st) ==> (r.Some? <==> 1 <= id < st.nextId)
    ensures WellFormed(st) && r.Some? ==> r.value.id == id
  {
    if id in st.records then Some(st.records[id]) else None
  }

  /** listSessions: the records in the Map's key order. */
  function List(st: Store): (r: seq<Session>)
    requires WellFormed(st)
    ensures |r| == st.nextId - 1
    ensures forall i :: 0 <= i < |r| ==> r[i] == st.records[i + 1] && r[i].id == i + 1
  {
    seq(|st.order|, i requires 0 <= i < |st.order| => st.records[st.order[i]])
  }

  /** The three filters of the store. */
  datatype Query = MoodIs(mood: string) | StepIs(step: int) | Completed

  predicate Matches(q: Query, s: Session)
  {
    match q
    case MoodIs(m) => s.mood == m
    case StepIs(n) => s.step == Some(n)
    case Completed => IsCompleted(s)
  }

  /** `t` is `s` with some elements left out, the rest in their order. */
  predicate IsSubsequence<T(==)>(t: seq<T>, s: seq<T>)
    decreases |s|
  {
    if t == [] then true
    else if s == [] then false
    else (t[0] == s[0] && IsSubsequence(t[1..], s[1..])) || IsSubsequence(t, s[1..])
  }

  predicate Distinct<T(==)>(s: seq<T>)
  {
    forall i, j :: 0 <= i < j < |s| ==> s[i] != s[j]
  }

  /**
   * Array.prototype.filter: the elements that match, in their order. The
   * result keeps the order of `ss` and holds exactly its matching elements.
   */
  function Select(ss: seq<Session>, q: Query): (r: seq<Session>)
    ensures IsSubsequence(r, ss)
    ensures forall x :: x in r <==> x in ss && Matches(q, x)
  {
    if ss == [] then []
    else
      var rest := Select(ss[1..], q);
      if Matches(q, ss[0]) then
        var r := [ss[0]] + rest;
        assert r[1..] == rest;
        r
      else
        rest
  }

  /** getSessionsByMood. */
  function ByMood(st: Store, mood: string): seq<Session>
    requires WellFormed(st)
  {
    Select(List(st), MoodIs(mood))
  }

  /** getSessionsByStep. */
  function ByStep(st: Store, step: int): seq<Session>
    requires WellFormed(st)
  {
    Select(List(st), StepIs(step))
  }

  /** getCompletedSessions. */
  function CompletedSessions(st: Store): seq<Session>
    requires WellFormed(st)
  {
    Select(List(st), Completed)
  }

  lemma {:induction false} SubsequenceMembers<T>(t: seq<T>, s: seq<T>, x: T)
    requires IsSubsequence(t, s) && x in t
    ensures x in s
    decreases |s|
  {
    if t[0] == s[0] && IsSubsequence(t[1..], s[1..]) {
      if x != t[0] {
        SubsequenceMembers(t[1..], s[1..], x);
      }
    } else {
      SubsequenceMembers(t, s[1..], x);
    }
  }

  lemma {:induction false} SubsequenceDistinct<T>(t: seq<T>, s: seq<T>)
    requires IsSubsequence(t, s) && Distinct(s)
    ensures Distinct(t)
    decreases |s|
  {
    if t != [] {
      assert Distinct(s[1..]) by {
        forall i, j | 0 <= i < j < |s[1..]| ensures s[1..][i] != s[1..][j] {
          assert s[1..][i] == s[i + 1] && s[1..][j] == s[j + 1];
        }
      }
      if t[0] == s[0] && IsSubsequence(t[1..], s[1..]) {
        SubsequenceDistinct(t[1..], s[1..]);
        forall j | 0 < j < |t| ensures t[0] != t[j] {
          assert t[j] == t[1..][j - 1];
          SubsequenceMembers(t[1..], s[1..], t[j]);
        }
        forall i, j | 0 <= i < j < |t| ensures t[i] != t[j] {
          if i > 0 {
            assert t[i] == t[1..][i - 1] && t[j] == t[1..][j - 1];
          }
        }
      } else {
        SubsequenceDistinct(t, s[1..]);
      }
    }
  }

  /**
   * The filter is the only order-keeping selection of a list without
   * repeats that holds exactly the matching elements.
   */
  lemma {:induction false} SelectUnique(ss: seq<Session>, q: Query, t: seq<Session>)
    requires Distinct(ss)
    requires IsSubsequence(t, ss)
    requires forall x :: x in t <==> x in ss && Matches(q, x)
    ensures t == Select(ss, q)
    decreases |ss|
  {
    if ss != [] {
      var tail := ss[1..];
      assert Distinct(tail) by {
        forall i, j | 0 <= i < j < |tail| ensures tail[i] != tail[j] {
          assert tail[i] == ss[i + 1] && tail[j] == ss[j + 1];
        }
      }
      assert ss[0] !in tail by {
        forall j | 0 <= j < |tail| ensures tail[j] != ss[0] {
          assert tail[j] == ss[j + 1];
        }
      }
      SubsequenceDistinct(t, ss);
      if Matches(q, ss[0]) {
        assert ss[0] in t;
        if !(t[0] == ss[0] && IsSubsequence(t[1..], tail)) {
          SubsequenceMembers(t, tail, ss[0]);
        }
        forall x ensures x in t[1..] <==> x in tail && Matches(q, x) {
          if x in t[1..] {
            var j :| 0 <= j < |t[1..]| && t[1..][j] == x;
            assert t[j + 1] == x;
            SubsequenceMembers(t[1..], tail, x);
          }
          if x in tail && Matches(q, x) {
            assert x in t && x != t[0];
            var j :| 0 <= j < |t| && t[j] == x;
            assert t[1..][j - 1] == x;
          }
        }
        SelectUnique(tail, q, t[1..]);
        assert t == [t[0]] + t[1..];
      } else {
        assert ss[0] !in t;
        if t != [] {
          assert t[0] in t;
        }
        forall x ensures x in t <==> x in tail && Matches(q, x) {
          if x in t {
            assert x in ss && x != ss[0];
          }
        }
        SelectUnique(tail, q, t);
      }
    }
  }

  /** Records are listed once each: ids are distinct. */
  lemma ListDistinct(st: Store)
    requires WellFormed(st)
    ensures Distinct(List(st))
  {
  }

  /** listSessions is in creation order: ids strictly increase along it. */
  lemma ListInCreationOrder(st: Store)
    requires WellFormed(st)
    ensures forall i, j :: 0 <= i < j < |List(st)| ==> List(st)[i].id < List(st)[j].id
  {
  }

  /**
   * getSessionsByMood returns exactly the listed records with that mood, in
   * list order; getSessionsByStep and getCompletedSessions likewise.
   */
  lemma FiltersAreExact(st: Store, q: Query, t: seq<Session>)
    requires WellFormed(st)
    requires IsSubsequence(t, List(st))
    requires forall x :: x in t <==> x in List(st) && Matches(q, x)
    ensures t == Select(List(st), q)
  {
    ListDistinct(st);
    SelectUnique(List(st), q, t);
  }

  /** A record whose completed was never set is not completed. */
  lemma UnsetCompletedExcluded(st: Store, k: int)
    requires WellFormed(st) && k in st.records && st.records[k].completed.None?
    ensures st.records[k] !in CompletedSessions(st)
  {
  }

  /** Each new id exceeds every id issued before, so no id is issued twice. */
  lemma {:induction false} IdsNeverReused(st: Store, ins: seq<InsertSession>, now: seq<int>)
    requires WellFormed(st) && |ins| == |now|
    ensures WellFormed(CreateAll(st, ins, now))
    ensures CreateAll(st, ins, now).nextId == st.nextId + |ins|
    ensures CreateIds(st, ins, now) == seq(|ins|, i => st.nextId + i)
    decreases |ins|
  {
    if ins != [] {
      var c := Create(st, ins[0], now[0]);
      IdsNeverReused(c.store, ins[1..], now[1..]);
    }
  }

  /** The store after a run of createSession calls. */
  function CreateAll(st: Store, ins: seq<InsertSession>, now: seq<int>): (r: Store)
    requires WellFormed(st) && |ins| == |now|
    ensures WellFormed(r)
    decreases |ins|
  {
    if ins == [] then st
    else CreateAll(Create(st, ins[0], now[0]).store, ins[1..], now[1..])
  }

  /** The ids a run of createSession calls returns. */
  function CreateIds(st: Store, ins: seq<InsertSession>, now: seq<int>): seq<int>
    requires WellFormed(st) && |ins| == |now|
    decreases |ins|
  {
    if ins == [] then []
    else
      var c := Create(st, ins[0], now[0]);
      [c.session.id] + CreateIds(c.store, ins[1..], now[1..])
  }

  /** After createSession returns a record, getSession of its id yields it. */
  lemma GetAfterCreate(st: Store, ins: InsertSession, now: int)
    requires WellFormed(st)
    ensures var c := Create(st, ins, now); Get(c.store, c.session.id) == Some(c.session)
  {
  }

  /** getSession of an id never issued yields undefined. */
  lemma GetNeverIssued(st: Store, id: int)
    requires WellFormed(st) && (id < 1 || id >= st.nextId)
    ensures Get(st, id) == None
  {
  }

  /** updateSession never creates a record, and leaves an absent id absent. */
  lemma UpdateAbsent(st: Store, id: int, p: UpdateSession, now: int)
    requires WellFormed(st) && Get(st, id).None?
    ensures Update(st, id, p, now) == Updated(st, None)
  {
  }

  /**
   * An update keeps the number of records, the counter and the listing
   * order; it changes the one listed record with that id and no other.
   */
  lemma UpdateKeepsListing(st: Store, id: int, p: UpdateSession, now: int)
    requires WellFormed(st)
    ensures var st' := Update(st, id, p, now).store;
      && |List(st')| == |List(st)|
      && forall i :: 0 <= i < |List(st)| ==>
           List(st')[i].id == List(st)[i].id
           && (List(st)[i].id != id ==> List(st')[i] == List(st)[i])
  {
  }

  /** Applying the same patch twice at the same instant is the same as once. */
  lemma MergeIdempotent(s: Session, p: UpdateSession, now: int)
    ensures Merge(Merge(s, p, now), p, now) == Merge(s, p, now)
  {
  }

  /**
   * The in-memory store as the server holds it: a Map from id to record and
   * a counter, both changed in place by createSession and updateSession.
   */
  class MemStorage {
    var sessions: map<int, Session>
    /** The Map's key order. */
    var order: seq<int>
    var currentId: int

    /** The state as a value. */
    function Model(): Store
      reads this
    {
      Store(sessions, order, currentId)
    }

    ghost predicate Valid()
      reads this
    {
      WellFormed(Model())
    }

    constructor ()
      ensures Valid() && Model() == Empty()
    {
      sessions := map[];
      order := [];
      currentId := 1;
    }

    method CreateSession(insertSession: InsertSession, now: int) returns (session: Session)
      requires Valid()
      modifies this
      ensures Valid()
      ensures Created(Model(), session) == Create(old(Model()), insertSession, now)
    {
      var id := currentId;
      currentId := currentId + 1;
      session := Session(id, insertSession.mood, insertSession.step, insertSession.completed, now, now);
      sessions := sessions[id := session];
      order := order + [id];
    }

    method UpdateSession(id: int, updateSession: UpdateSession, now: int) returns (result: Option<Session>)
      requires Valid()
      modifies this
      ensures Valid()
      ensures Updated(Model(), result) == Update(old(Model()), id, updateSession, now)
    {
      if id !in sessions {
        return None;
      }
      var session := sessions[id];
      var updated := session.(timestampUpdated := now);
      if updateSession.step.Put? {
        updated := updated.(step := updateSession.step.value);
      }
      if updateSession.completed.Put? {
        updated := updated.(completed := Some(updateSession.completed.value));
      }
      sessions := sessions[id := updated];
      result := Some(updated);
    }

    method GetSession(id: int) returns (result: Option<Session>)
      ensures result == Get(Model(), id)
    {
      result := if id in sessions then Some(sessions[id]) else None;
    }

    method ListSessions() returns (result: seq<Session>)
      requires Valid()
      ensures result == List(Model())
    {
      var keys, values := order, sessions;
      result := seq(|keys|, i requires 0 <= i < |keys| => values[keys[i]]);
    }

    method GetSessionsByMood(mood: string) returns (result: seq<Session>)
      requires Valid()
      ensures result == ByMood(Model(), mood)
    {
      var all := ListSessions();
      result := Select(all, MoodIs(mood));
    }

    method GetSessionsByStep(step: int) returns (result: seq<Session>)
      requires Valid()
      ensures result == ByStep(Model(), step)
    {
      var all := ListSessions();
      result := Select(all, StepIs(step));
    }

    method GetCompletedSessions() returns (result: seq<Session>)
      requires Valid()
      ensures result == CompletedSessions(Model())
    {
      var all := ListSessions();
      result := Select(all, Completed);
    }
  }
}
