/**
 * The history screen's list: sessions newest first by `updatedAt`, with ties
 * in stored order (`sortedByDescending` is a stable sort), one row per
 * session showing its message count.
 */
module HistoryScreen {
  import opened ChatSessions

  /** The sessions whose `updatedAt` is `t`, in order. */
  function WithUpdatedAt(list: seq<ChatSession>, t: int): (r: seq<ChatSession>)
    ensures |r| <= |list|
    ensures forall i :: 0 <= i < |r| ==> r[i].updatedAt == t
  {
    if list == [] then []
    else (if list[0].updatedAt == t then [list[0]] else []) + WithUpdatedAt(list[1..], t)
  }

  /** Newest first: `updatedAt` never increases from one session to the next. */
  predicate NewestFirst(list: seq<ChatSession>) {
    forall i :: 0 < i < |list| ==> list[i - 1].updatedAt >= list[i].updatedAt
  }

  /** Along a newest-first list every earlier session is at least as new as every later one. */
  lemma {:induction false} NewestFirstAllPairs(list: seq<ChatSession>, i: nat, j: nat)
    requires NewestFirst(list) && i <= j < |list|
    ensures list[i].updatedAt >= list[j].updatedAt
    decreases j - i
  {
    if i < j {
      NewestFirstAllPairs(list, i + 1, j);
    }
  }

  /**
   * Places `x` into a newest-first list just before the first session that
   * is not newer than it, so `x` precedes the sessions it ties with.
   */
  function Insert(x: ChatSession, sorted: seq<ChatSession>): (r: seq<ChatSession>)
    ensures |r| == |sorted| + 1
    ensures r[0] == x || (sorted != [] && r[0] == sorted[0])
  {
    if sorted == [] then [x]
    else if sorted[0].updatedAt <= x.updatedAt then [x] + sorted
    else [sorted[0]] + Insert(x, sorted[1..])
  }

  /** Inserting adds exactly `x` and loses nothing. */
  lemma {:induction false} InsertIsPermutation(x: ChatSession, sorted: seq<ChatSession>)
    ensures multiset(Insert(x, sorted)) == multiset(sorted) + multiset{x}
  {
    if sorted != [] && sorted[0].updatedAt > x.updatedAt {
      InsertIsPermutation(x, sorted[1..]);
      assert sorted == [sorted[0]] + sorted[1..];
    }
  }

  /** Inserting into a newest-first list keeps it newest first. */
  lemma {:induction false} InsertKeepsNewestFirst(x: ChatSession, sorted: seq<ChatSession>)
    requires NewestFirst(sorted)
    ensures NewestFirst(Insert(x, sorted))
  {
    if sorted != [] && sorted[0].updatedAt > x.updatedAt {
      var rest := Insert(x, sorted[1..]);
      InsertKeepsNewestFirst(x, sorted[1..]);
      var r := [sorted[0]] + rest;
      assert r[0].updatedAt >= r[1].updatedAt;
      assert forall i :: 0 < i < |r| ==> r[i] == rest[i - 1];
    }
  }

  /** `sortedByDescending { it.updatedAt }`, as a stable insertion sort. */
  function SortNewestFirst(list: seq<ChatSession>): (r: seq<ChatSession>)
    ensures |r| == |list|
    ensures multiset(r) == multiset(list)
    ensures NewestFirst(r)
  {
    if list == [] then []
    else
      var rest := SortNewestFirst(list[1..]);
      InsertIsPermutation(list[0], rest);
      InsertKeepsNewestFirst(list[0], rest);
      assert list == [list[0]] + list[1..];
      Insert(list[0], rest)
  }

  /** Inserting `x` adds it in front of its ties and leaves every other tie group alone. */
  lemma {:induction false} InsertKeepsTies(x: ChatSession, sorted: seq<ChatSession>, t: int)
    ensures WithUpdatedAt(Insert(x, sorted), t)
         == (if x.updatedAt == t then [x] else []) + WithUpdatedAt(sorted, t)
  {
    if sorted == [] {
      WithUpdatedAtCons(x, [], t);
    } else if sorted[0].updatedAt <= x.updatedAt {
      WithUpdatedAtCons(x, sorted, t);
    } else {
      var rest := Insert(x, sorted[1..]);
      InsertKeepsTies(x, sorted[1..], t);
      WithUpdatedAtCons(sorted[0], rest, t);
      WithUpdatedAtCons(sorted[0], sorted[1..], t);
      assert sorted == [sorted[0]] + sorted[1..];
      var w := WithUpdatedAt(sorted[1..], t);
      if x.updatedAt == t {
        assert sorted[0].updatedAt != t;
        assert WithUpdatedAt(rest, t) == [x] + w;
        assert WithUpdatedAt(sorted, t) == w;
      } else {
        assert WithUpdatedAt(rest, t) == w;
      }
    }
  }

  /** Filtering a list with a head: the head if it matches, then the filtered tail. */
  lemma WithUpdatedAtCons(h: ChatSession, rest: seq<ChatSession>, t: int)
    ensures h.updatedAt == t ==> WithUpdatedAt([h] + rest, t) == [h] + WithUpdatedAt(rest, t)
    ensures h.updatedAt != t ==> WithUpdatedAt([h] + rest, t) == WithUpdatedAt(rest, t)
  {
    assert ([h] + rest)[1..] == rest;
  }

  /** Stability: sessions with equal `updatedAt` keep their stored relative order. */
  lemma {:induction false} SortIsStable(list: seq<ChatSession>, t: int)
    ensures WithUpdatedAt(SortNewestFirst(list), t) == WithUpdatedAt(list, t)
  {
    if list != [] {
      SortIsStable(list[1..], t);
      InsertKeepsTies(list[0], SortNewestFirst(list[1..]), t);
    }
  }

  /** Sorting an already newest-first list with no ties changes nothing. */
  lemma {:induction false} SortKeepsStrictlyOrdered(list: seq<ChatSession>)
    requires forall i :: 0 < i < |list| ==> list[i - 1].updatedAt > list[i].updatedAt
    ensures SortNewestFirst(list) == list
  {
    if list != [] {
      SortKeepsStrictlyOrdered(list[1..]);
    }
  }

  /** One row of the list: the session it opens or deletes, and its message count. */
  datatype HistoryRow = HistoryRow(session: ChatSession, messageCount: nat)

  /** The sessions behind a list of rows, in row order. */
  function RowSessions(rows: seq<HistoryRow>): (r: seq<ChatSession>)
    ensures |r| == |rows| && forall i :: 0 <= i < |rows| ==> r[i] == rows[i].session
  {
    seq(|rows|, i requires 0 <= i < |rows| => rows[i].session)
  }

  /**
   * The list the screen shows: nothing while loading, otherwise one row per
   * stored session, newest first, each counting its session's messages.
   */
  function Rows(isLoading: bool, sessions: seq<ChatSession>): (r: seq<HistoryRow>)
    ensures isLoading ==> r == []
    ensures !isLoading ==>
      && multiset(RowSessions(r)) == multiset(sessions)
      && NewestFirst(RowSessions(r))
      && (forall i :: 0 <= i < |r| ==> r[i].messageCount == |r[i].session.messages|)
  {
    if isLoading then []
    else
      var sorted := SortNewestFirst(sessions);
      var r := seq(|sorted|, i requires 0 <= i < |sorted| => HistoryRow(sorted[i], |sorted[i].messages|));
      assert RowSessions(r) == sorted;
      r
  }

  /** Rows with the same `updatedAt` appear in stored order. */
  lemma RowsAreStable(sessions: seq<ChatSession>, t: int)
    ensures WithUpdatedAt(RowSessions(Rows(false, sessions)), t) == WithUpdatedAt(sessions, t)
  {
    assert RowSessions(Rows(false, sessions)) == SortNewestFirst(sessions);
    SortIsStable(sessions, t);
  }
}
