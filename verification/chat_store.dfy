/**
 * The local session store: one blob under a fixed key holding the whole list
 * of sessions. Every operation loads the entire list, changes it in memory
 * and saves the entire list back, so each mutating operation is modelled as a
 * function from the loaded list to the list that is saved.
 */
module ChatStore {
  import opened Wrappers
  import opened ChatSessions

  /**
   * What the preference store holds under the sessions key: nothing at all,
   * or a blob whose decoding yields a list or null.
   */
  datatype Stored = Absent | Blob(decoded: Option<seq<ChatSession>>)

  /** `loadAllInternal`: a missing key reads as "[]", a null decoding as an empty list. */
  function LoadAll(st: Stored): (r: seq<ChatSession>)
    ensures st.Absent? ==> r == []
    ensures st.Blob? && st.decoded.None? ==> r == []
  {
    match st
    case Absent => []
    case Blob(decoded) => decoded.GetOr([])
  }

  /** `saveAll`: the whole list replaces whatever was stored. */
  function SaveAll(list: seq<ChatSession>): (st: Stored)
    ensures st.Blob?
  {
    Blob(Some(list))
  }

  /** `getAll`. */
  function GetAll(st: Stored): (r: seq<ChatSession>)
    ensures st.Blob? && st.decoded.Some? ==> r == st.decoded.value
    ensures !(st.Blob? && st.decoded.Some?) ==> r == []
  {
    LoadAll(st)
  }

  /** The two fields sessions are looked up by. */
  datatype Field = Id | ThreadId

  function KeyOf(s: ChatSession, f: Field): string {
    match f
    case Id => s.id
    case ThreadId => s.threadId
  }

  /** `indexOfFirst { KeyOf(it, f) == v }`: the first matching position, or -1. */
  function IndexOfFirst(list: seq<ChatSession>, f: Field, v: string): (r: int)
    ensures -1 <= r < |list|
    ensures 0 <= r ==> KeyOf(list[r], f) == v
    ensures forall j :: 0 <= j < |list| && (r < 0 || j < r) ==> KeyOf(list[j], f) != v
  {
    if list == [] then -1
    else if KeyOf(list[0], f) == v then 0
    else
      var k := IndexOfFirst(list[1..], f, v);
      if k < 0 then -1 else k + 1
  }

  /** `firstOrNull { KeyOf(it, f) == v }`. */
  function FirstWith(list: seq<ChatSession>, f: Field, v: string): (r: Option<ChatSession>)
    ensures r.None? <==> forall j :: 0 <= j < |list| ==> KeyOf(list[j], f) != v
    ensures r.Some? ==> 0 <= IndexOfFirst(list, f, v) && r.value == list[IndexOfFirst(list, f, v)]
  {
    var i := IndexOfFirst(list, f, v);
    if i < 0 then None else Some(list[i])
  }

  /** `getById`: the first session whose id matches, or nothing. */
  function GetById(list: seq<ChatSession>, id: string): (r: Option<ChatSession>)
    ensures r.None? <==> forall j :: 0 <= j < |list| ==> list[j].id != id
    ensures r.Some? ==> r.value.id == id
    ensures r.Some? ==> exists i :: 0 <= i < |list| && list[i] == r.value
                                    && forall j :: 0 <= j < i ==> list[j].id != id
  {
    var r := FirstWith(list, Id, id);
    assert r.Some? ==> var i := IndexOfFirst(list, Id, id); list[i] == r.value;
    r
  }

  /** `getByThreadId`: the first session whose thread matches, or nothing. */
  function GetByThreadId(list: seq<ChatSession>, threadId: string): (r: Option<ChatSession>)
    ensures r.None? <==> forall j :: 0 <= j < |list| ==> list[j].threadId != threadId
    ensures r.Some? ==> r.value.threadId == threadId
    ensures r.Some? ==> exists i :: 0 <= i < |list| && list[i] == r.value
                                    && forall j :: 0 <= j < i ==> list[j].threadId != threadId
  {
    var r := FirstWith(list, ThreadId, threadId);
    assert r.Some? ==> var i := IndexOfFirst(list, ThreadId, threadId); list[i] == r.value;
    r
  }

  /**
   * `upsert`: the first session with the same id is replaced in place;
   * otherwise the session is appended. The id is stored as given.
   */
  function Upsert(list: seq<ChatSession>, s: ChatSession): (r: seq<ChatSession>)
    ensures var i := IndexOfFirst(list, Id, s.id);
      0 <= i ==> |r| == |list| && r[i] == s
                 && forall j :: 0 <= j < |list| && j != i ==> r[j] == list[j]
    ensures IndexOfFirst(list, Id, s.id) < 0 ==>
      |r| == |list| + 1 && r[|list|] == s && r[..|list|] == list
  {
    var i := IndexOfFirst(list, Id, s.id);
    if 0 <= i then list[i := s] else list + [s]
  }

  /** `delete`: drops every session with the id, keeping the others in order. */
  function Delete(list: seq<ChatSession>, id: string): (r: seq<ChatSession>)
    ensures |r| <= |list|
    ensures forall x :: x in r <==> x in list && x.id != id
  {
    if list == [] then []
    else if list[0].id == id then Delete(list[1..], id)
    else [list[0]] + Delete(list[1..], id)
  }

  /** `clear`: nothing can be found afterwards. */
  function Clear(list: seq<ChatSession>): (r: seq<ChatSession>)
    ensures forall id :: GetById(r, id).None?
    ensures forall t :: GetByThreadId(r, t).None?
  {
    []
  }

  /** The result of `upsertByThreadId`: the new list and the session as stored. */
  datatype Upserted = Upserted(sessions: seq<ChatSession>, stored: ChatSession)

  /**
   * `upsertByThreadId`: rewrites the id to the thread id when they differ,
   * upserts that copy and returns it.
   */
  function UpsertByThreadId(list: seq<ChatSession>, s: ChatSession): (r: Upserted)
    ensures r.stored == WithId(s, s.threadId)
    ensures r.sessions == Upsert(list, r.stored)
  {
    var fixed := if s.id != s.threadId then WithId(s, s.threadId) else s;
    Upserted(Upsert(list, fixed), fixed)
  }

  // ---------------------------------------------------------------------------
  // Invariants of the list

  /** No two stored sessions share an id. */
  predicate DistinctIds(list: seq<ChatSession>) {
    forall i, j :: 0 <= i < j < |list| ==> list[i].id != list[j].id
  }

  /** Every stored session is keyed by its own thread. */
  predicate KeyedByThread(list: seq<ChatSession>) {
    forall i :: 0 <= i < |list| ==> list[i].id == list[i].threadId
  }

  /** The ids present in the list. */
  function Ids(list: seq<ChatSession>): set<string> {
    set i | 0 <= i < |list| :: list[i].id
  }

  /** How many stored sessions carry the id. */
  function CountId(list: seq<ChatSession>, id: string): nat {
    if list == [] then 0 else (if list[0].id == id then 1 else 0) + CountId(list[1..], id)
  }

  lemma CountIdSplit(a: seq<ChatSession>, b: seq<ChatSession>, id: string)
    ensures CountId(a + b, id) == CountId(a, id) + CountId(b, id)
  {
    if a == [] {
      assert a + b == b;
    } else {
      assert (a + b)[1..] == a[1..] + b;
      CountIdSplit(a[1..], b, id);
    }
  }

  /** With distinct ids, an id present once is counted once. */
  lemma {:induction false} CountIdDistinct(list: seq<ChatSession>, id: string)
    requires DistinctIds(list)
    ensures CountId(list, id) == if id in Ids(list) then 1 else 0
  {
    if list != [] {
      CountIdDistinct(list[1..], id);
      assert Ids(list) == {list[0].id} + Ids(list[1..]) by {
        forall x | x in Ids(list) ensures x in {list[0].id} + Ids(list[1..]) {
          var i :| 0 <= i < |list| && list[i].id == x;
          if i > 0 { assert list[1..][i - 1] == list[i]; }
        }
        forall x | x in Ids(list[1..]) ensures x in Ids(list) {
          var i :| 0 <= i < |list| - 1 && list[1..][i].id == x;
          assert list[i + 1].id == x;
        }
      }
    }
  }

  // ---------------------------------------------------------------------------
  // Properties of upsert

  /** After an upsert, looking the id up yields the session exactly as given. */
  lemma UpsertThenGet(list: seq<ChatSession>, s: ChatSession)
    ensures GetById(Upsert(list, s), s.id) == Some(s)
  {
    var r := Upsert(list, s);
    var i := IndexOfFirst(list, Id, s.id);
    var k := if 0 <= i then i else |list|;
    assert r[k] == s;
    assert forall j :: 0 <= j < k ==> r[j].id != s.id;
    var g := GetById(r, s.id);
    var n :| 0 <= n < |r| && r[n] == g.value && forall j :: 0 <= j < n ==> r[j].id != s.id;
    assert n == k;
  }

  /**
   * `upsert` against the store: load the list, change it in memory, save it.
   * The next load sees the changed list, finds the session as given under its
   * id, and knows exactly the ids known before plus the new one.
   */
  lemma UpsertPersists(st: Stored, s: ChatSession)
    ensures var after := SaveAll(Upsert(GetAll(st), s));
      && GetAll(after) == Upsert(GetAll(st), s)
      && GetById(GetAll(after), s.id) == Some(s)
      && Ids(GetAll(after)) == Ids(GetAll(st)) + {s.id}
  {
    UpsertThenGet(GetAll(st), s);
    UpsertIds(GetAll(st), s);
  }

  /** Upsert neither loses nor invents ids: only the upserted id may be new. */
  lemma UpsertIds(list: seq<ChatSession>, s: ChatSession)
    ensures Ids(Upsert(list, s)) == Ids(list) + {s.id}
  {
    var r := Upsert(list, s);
    var i := IndexOfFirst(list, Id, s.id);
    if 0 <= i {
      forall x | x in Ids(list) ensures x in Ids(r) {
        var j :| 0 <= j < |list| && list[j].id == x;
        if j == i { assert r[i].id == x; } else { assert r[j].id == x; }
      }
      assert s.id in Ids(r) by { assert r[i].id == s.id; }
      forall x | x in Ids(r) ensures x in Ids(list) + {s.id} {
        var j :| 0 <= j < |r| && r[j].id == x;
        if j != i { assert list[j].id == x; }
      }
    } else {
      forall x | x in Ids(list) ensures x in Ids(r) {
        var j :| 0 <= j < |list| && list[j].id == x;
        assert r[j] == list[j];
      }
      assert s.id in Ids(r) by { assert r[|list|].id == s.id; }
      forall x | x in Ids(r) ensures x in Ids(list) + {s.id} {
        var j :| 0 <= j < |r| && r[j].id == x;
        if j < |list| { assert r[j] == list[j]; }
      }
    }
  }

  /** Distinct ids stay distinct across an upsert. */
  lemma UpsertKeepsIdsDistinct(list: seq<ChatSession>, s: ChatSession)
    requires DistinctIds(list)
    ensures DistinctIds(Upsert(list, s))
  {
    var r := Upsert(list, s);
    var i := IndexOfFirst(list, Id, s.id);
    forall a, b | 0 <= a < b < |r| ensures r[a].id != r[b].id {
      if 0 <= i {
        if a == i { assert list[i].id == s.id; }
        else if b == i { assert list[i].id == s.id; }
      } else {
        if b == |list| { assert list[a].id != s.id; }
      }
    }
  }

  /**
   * Two upserts with the same id (the chat screen persisting twice) leave a
   * single record for that id, holding the second session, when ids were
   * distinct to begin with; the list grows at most by one.
   */
  lemma UpsertTwiceSameId(list: seq<ChatSession>, a: ChatSession, b: ChatSession)
    requires DistinctIds(list)
    requires a.id == b.id
    ensures CountId(Upsert(Upsert(list, a), b), a.id) == 1
    ensures GetById(Upsert(Upsert(list, a), b), a.id) == Some(b)
    ensures |Upsert(Upsert(list, a), b)| == |Upsert(list, a)| <= |list| + 1
  {
    var l1 := Upsert(list, a);
    var l2 := Upsert(l1, b);
    UpsertKeepsIdsDistinct(list, a);
    UpsertKeepsIdsDistinct(l1, b);
    UpsertThenGet(l1, b);
    UpsertIds(l1, b);
    CountIdDistinct(l2, a.id);
    UpsertThenGet(list, a);
    assert 0 <= IndexOfFirst(l1, Id, b.id);
  }

  /** Plain upsert does not enforce `id == threadId`: a mismatched session is stored as is. */
  lemma UpsertDoesNotRekey(list: seq<ChatSession>, s: ChatSession)
    requires s.id != s.threadId
    ensures !KeyedByThread(Upsert(list, s))
  {
    UpsertThenGet(list, s);
  }

  // ---------------------------------------------------------------------------
  // Properties of upsertByThreadId

  /** The returned session is keyed by its thread and found under that key. */
  lemma UpsertByThreadIdFindable(list: seq<ChatSession>, s: ChatSession)
    ensures UpsertByThreadId(list, s).stored.id == s.threadId
    ensures GetById(UpsertByThreadId(list, s).sessions, s.threadId)
            == Some(UpsertByThreadId(list, s).stored)
  {
    UpsertThenGet(list, WithId(s, s.threadId));
  }

  /** Keying every session by its thread is an invariant of `upsertByThreadId`. */
  lemma UpsertByThreadIdKeepsKeying(list: seq<ChatSession>, s: ChatSession)
    requires KeyedByThread(list)
    ensures KeyedByThread(UpsertByThreadId(list, s).sessions)
  {
  }

  /** Under the keying invariant, lookup by thread and lookup by id agree. */
  lemma {:induction false} ThreadLookupIsIdLookup(list: seq<ChatSession>, t: string)
    requires KeyedByThread(list)
    ensures GetByThreadId(list, t) == GetById(list, t)
  {
    if list != [] {
      ThreadLookupIsIdLookup(list[1..], t);
      assert IndexOfFirst(list, Id, t) == IndexOfFirst(list, ThreadId, t);
    }
  }

  // ---------------------------------------------------------------------------
  // Properties of delete

  /** Deletion works element by element, so it keeps the survivors' order. */
  lemma {:induction false} DeleteDistributes(a: seq<ChatSession>, b: seq<ChatSession>, id: string)
    ensures Delete(a + b, id) == Delete(a, id) + Delete(b, id)
  {
    if a == [] {
      assert a + b == b;
    } else {
      assert (a + b)[1..] == a[1..] + b;
      DeleteDistributes(a[1..], b, id);
    }
  }

  /** Deleting an absent id leaves the list unchanged. */
  lemma {:induction false} DeleteAbsent(list: seq<ChatSession>, id: string)
    requires forall j :: 0 <= j < |list| ==> list[j].id != id
    ensures Delete(list, id) == list
  {
    if list != [] {
      DeleteAbsent(list[1..], id);
    }
  }

  /** Lookups of every other id are unaffected by a delete. */
  lemma {:induction false} DeleteKeepsOthers(list: seq<ChatSession>, id: string, other: string)
    requires other != id
    ensures GetById(Delete(list, id), other) == GetById(list, other)
  {
    if list != [] {
      DeleteKeepsOthers(list[1..], id, other);
      assert IndexOfFirst(Delete(list, id), Id, other) >= 0 <==> IndexOfFirst(list, Id, other) >= 0;
    }
  }

  /** The store holding sessions "t1" and "t2" holds just "t2" after deleting "t1". */
  lemma DeleteExample(t1: ChatSession, t2: ChatSession)
    requires t1.id == "t1" && t2.id == "t2"
    ensures Delete([t1, t2], "t1") == [t2]
  {
    assert [t1, t2][1..] == [t2];
    assert [t2][1..] == [];
  }
}
