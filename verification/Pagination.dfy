/** src/acp/db/queries/tasks.py, `list_tasks`: keyset pagination on (created_at, id), newest first. */
module Pagination {
  import opened Wrappers
  import opened Orders
  import opened States
  import opened Tables

  datatype Key = Key(createdAt: Time, id: TaskId)

  /** ORDER BY created_at DESC, id DESC. */
  predicate Newer(a: Key, b: Key) {
    a.createdAt > b.createdAt || (a.createdAt == b.createdAt && a.id > b.id)
  }

  lemma NewerIsTotalOrder()
    ensures TotalOrder(Newer)
  {}

  function Matching(tasks: map<TaskId, Task>, tenant: Option<TenantId>, state: Option<State>): set<Key> {
    set id | id in tasks && (tenant.Some? ==> tasks[id].tenant == tenant.value) && (state.Some? ==> tasks[id].state == state.value)
      :: Key(tasks[id].createdAt, id)
  }

  /** The rows strictly after the cursor; all of them without one. */
  function Below(keys: set<Key>, cursor: Option<Key>): set<Key> {
    set k | k in keys && (cursor.Some? ==> Newer(cursor.value, k))
  }

  function Listed(keys: set<Key>): seq<Key> {
    NewerIsTotalOrder();
    Ascending(keys, Newer)
  }

  // `IndexError`: a page of no rows has no last row to make a cursor from.
  datatype PageResult = Page(rows: seq<Key>, next: Option<Key>) | IndexError

  function PageOf(keys: set<Key>, limit: nat, cursor: Option<Key>): PageResult {
    var rows := Listed(Below(keys, cursor));
    if |rows| <= limit then Page(rows, None)
    else if limit == 0 then IndexError
    else Page(rows[..limit], Some(rows[limit - 1]))
  }

  /** `list_tasks`: ask for one row more than the page holds, and keep it back. */
  method ListTasks(conn: Connection, tenant: Option<TenantId>, state: Option<State>, limit: nat, cursor: Option<Key>)
    returns (page: PageResult)
    ensures page == PageOf(Matching(conn.tasks, tenant, state), limit, cursor)
  {
    NewerIsTotalOrder();
    var rows := Take(limit + 1, Below(Matching(conn.tasks, tenant, state), cursor), Newer);
    var next := None;
    if |rows| > limit {
      rows := rows[..limit];
      if rows == [] {
        return IndexError;
      }
      next := Some(rows[|rows| - 1]);
    }
    page := Page(rows, next);
  }

  // ---- following the cursors ---------------------------------------------------------------------------------

  lemma ListedFacts(keys: set<Key>)
    ensures Increasing(Listed(keys), Newer) && Elements(Listed(keys)) == keys && |Listed(keys)| == |keys|
  {
    NewerIsTotalOrder();
    AscendingIncreases(keys, Newer);
  }

  /** A key sorts after the n-th row exactly when it is one of the later rows. */
  lemma LaterRows(keys: set<Key>, cursor: Option<Key>, rows: seq<Key>, n: nat, k: Key)
    requires rows == Listed(Below(keys, cursor)) && 0 < n <= |rows|
    requires Increasing(rows, Newer) && Elements(rows) == Below(keys, cursor)
    ensures k in Below(keys, Some(rows[n - 1])) <==> k in rows[n..]
  {
    var last := rows[n - 1];
    assert last in Elements(rows);
    if k in Below(keys, Some(last)) {
      assert cursor.Some? ==> Newer(cursor.value, k);
      assert k in Elements(rows);
      var i :| 0 <= i < |rows| && rows[i] == k;
      assert i >= n;
      assert rows[n..][i - n] == k;
    }
    if k in rows[n..] {
      var i :| n <= i < |rows| && rows[i] == k;
      assert Newer(rows[n - 1], rows[i]) && k in Elements(rows);
    }
  }

  /** What lies below the last row of a page is the rest of the list. */
  lemma RestAfter(keys: set<Key>, cursor: Option<Key>, n: nat)
    requires 0 < n <= |Listed(Below(keys, cursor))|
    ensures var rows := Listed(Below(keys, cursor));
            Listed(Below(keys, Some(rows[n - 1]))) == rows[n..]
  {
    var rows := Listed(Below(keys, cursor));
    ListedFacts(Below(keys, cursor));
    NewerIsTotalOrder();
    var last := rows[n - 1];
    IncreasingIsAscending(rows[n..], Newer);
    forall k ensures k in Below(keys, Some(last)) <==> k in rows[n..] {
      LaterRows(keys, cursor, rows, n, k);
    }
    assert Below(keys, Some(last)) == Elements(rows[n..]);
  }

  /** The pages a client gets that starts at `cursor` and follows every `next_cursor`. */
  function Pages(keys: set<Key>, limit: nat, cursor: Option<Key>): seq<seq<Key>>
    requires limit >= 1
    decreases |Below(keys, cursor)|
  {
    var p := PageOf(keys, limit, cursor);
    if p.next.None? then [p.rows]
    else
      RestAfter(keys, cursor, limit);
      [p.rows] + Pages(keys, limit, p.next)
  }

  function Joined(pages: seq<seq<Key>>): seq<Key> {
    if pages == [] then [] else pages[0] + Joined(pages[1..])
  }

  lemma JoinedCons(page: seq<Key>, rest: seq<seq<Key>>)
    ensures Joined([page] + rest) == page + Joined(rest)
  {
    assert ([page] + rest)[1..] == rest;
  }

  /** Every page but the last is full, and only an empty result has an empty page. */
  ghost predicate WellFilled(pages: seq<seq<Key>>, limit: nat, empty: bool) {
    && pages != []
    && (forall i | 0 <= i < |pages| - 1 :: |pages[i]| == limit)
    && |pages[|pages| - 1]| <= limit && (pages[|pages| - 1] == [] <==> empty)
  }

  lemma FilledCons(page: seq<Key>, rest: seq<seq<Key>>, limit: nat)
    requires |page| == limit && WellFilled(rest, limit, false)
    ensures WellFilled([page] + rest, limit, false)
  {
    assert forall i | 0 < i < |rest| + 1 :: ([page] + rest)[i] == rest[i - 1];
  }

  /** A page that has a successor, and the list the successor starts. */
  lemma PageStep(keys: set<Key>, limit: nat, cursor: Option<Key>)
    requires limit >= 1 && PageOf(keys, limit, cursor).next.Some?
    ensures var p := PageOf(keys, limit, cursor);
      && Listed(Below(keys, cursor)) == p.rows + Listed(Below(keys, p.next))
      && |p.rows| == limit && |Below(keys, p.next)| < |Below(keys, cursor)|
      && Below(keys, p.next) != {} && Below(keys, cursor) != {}
  {
    var rows := Listed(Below(keys, cursor));
    RestAfter(keys, cursor, limit);
    ListedSize(Below(keys, cursor));
    ListedSize(Below(keys, Some(rows[limit - 1])));
    assert rows == rows[..limit] + rows[limit..];
  }

  lemma ListedSize(keys: set<Key>)
    ensures |Listed(keys)| == |keys|
  {
    ListedFacts(keys);
  }

  lemma LastPage(keys: set<Key>, limit: nat, cursor: Option<Key>)
    requires limit >= 1 && PageOf(keys, limit, cursor).next.None?
    ensures Pages(keys, limit, cursor) == [Listed(Below(keys, cursor))]
    ensures |Listed(Below(keys, cursor))| <= limit && (Listed(Below(keys, cursor)) == [] <==> Below(keys, cursor) == {})
  {
    ListedFacts(Below(keys, cursor));
  }

  lemma {:induction false} PagesFrom(keys: set<Key>, limit: nat, cursor: Option<Key>)
    requires limit >= 1
    ensures Joined(Pages(keys, limit, cursor)) == Listed(Below(keys, cursor))
    ensures WellFilled(Pages(keys, limit, cursor), limit, Below(keys, cursor) == {})
    decreases |Below(keys, cursor)|
  {
    var p := PageOf(keys, limit, cursor);
    if p.next.None? {
      LastPage(keys, limit, cursor);
      JoinedCons(Listed(Below(keys, cursor)), []);
    } else {
      PageStep(keys, limit, cursor);
      PagesFrom(keys, limit, p.next);
      JoinedCons(p.rows, Pages(keys, limit, p.next));
      FilledCons(p.rows, Pages(keys, limit, p.next), limit);
    }
  }

  /** Following the cursors from the start over a fixed table returns every matching row exactly once,
      newest first; every page but the last is full; only an empty result has an empty page. */
  lemma PaginationIsComplete(tasks: map<TaskId, Task>, tenant: Option<TenantId>, state: Option<State>, limit: nat)
    requires limit >= 1
    ensures var keys := Matching(tasks, tenant, state); var pages := Pages(keys, limit, None);
      && Increasing(Joined(pages), Newer) && Elements(Joined(pages)) == keys && |Joined(pages)| == |keys|
      && WellFilled(pages, limit, keys == {})
  {
    var keys := Matching(tasks, tenant, state);
    assert Below(keys, None) == keys;
    PagesFrom(keys, limit, None);
    ListedFacts(keys);
  }

  lemma {:induction false} SamePages(a: set<Key>, b: set<Key>, limit: nat, cursor: Key)
    requires limit >= 1 && Below(a, Some(cursor)) == Below(b, Some(cursor))
    ensures Pages(a, limit, Some(cursor)) == Pages(b, limit, Some(cursor))
    decreases |Below(a, Some(cursor))|
  {
    var p := PageOf(a, limit, Some(cursor));
    assert p == PageOf(b, limit, Some(cursor));
    if p.next.Some? {
      var next := p.next.value;
      ListedFacts(Below(a, Some(cursor)));
      RestAfter(a, Some(cursor), limit);
      ListedFacts(Below(a, Some(next)));
      RestAfter(b, Some(cursor), limit);
      ListedFacts(Below(b, Some(next)));
      SamePages(a, b, limit, next);
    }
  }

  /** Rows that appear between two pages leave the remaining pages alone exactly when none of them sorts
      after the cursor: newer rows never disturb a client that is already paging. */
  lemma InsertsDisturbIff(keys: set<Key>, added: set<Key>, limit: nat, cursor: Key)
    requires limit >= 1 && added !! keys
    ensures Pages(keys + added, limit, Some(cursor)) == Pages(keys, limit, Some(cursor)) <==>
            forall k <- added :: !Newer(cursor, k)
  {
    if forall k <- added :: !Newer(cursor, k) {
      assert Below(keys + added, Some(cursor)) == Below(keys, Some(cursor));
      SamePages(keys + added, keys, limit, cursor);
    } else {
      var k :| k in added && Newer(cursor, k);
      PagesFrom(keys, limit, Some(cursor));
      PagesFrom(keys + added, limit, Some(cursor));
      ListedFacts(Below(keys, Some(cursor)));
      ListedFacts(Below(keys + added, Some(cursor)));
      assert k in Below(keys + added, Some(cursor)) && k !in Below(keys, Some(cursor));
    }
  }
}
