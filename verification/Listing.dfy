/** src/acp/db/queries/tasks.py, `list_tasks` with the cursors a client really sends: opaque strings. */
module Listing {
  import opened Wrappers
  import opened Orders
  import opened States
  import opened Tables
  import opened Cursors
  import opened Calendar
  import opened Pagination

  /** What a `timestamptz` read as a `datetime` and a UUID column can hold. */
  predicate Storable(k: Key) {
    0 <= k.createdAt < END && k.id < UUID_BOUND
  }

  predicate AllStorable(keys: set<Key>) {
    forall k <- keys :: Storable(k)
  }

  function Encoded(k: Key): string
    requires Storable(k)
  {
    EncodeCursor(StampOf(k.createdAt), k.id)
  }

  /** The row a cursor names, if it can be read at all. */
  function Decoded(cursor: string): Option<Key> {
    match DecodeCursor(cursor)
    case None => None
    case Some((t, id)) => if ValidStamp(t) then Some(Key(Instant(t), id)) else None
  }

  // `Garbled`: reading the cursor raises.
  datatype Answer = Answer(rows: seq<Key>, next: Option<string>) | NoLastRow | Garbled

  function Rendered(p: PageResult): Answer
    requires p.Page? && p.next.Some? ==> Storable(p.next.value)
  {
    match p
    case IndexError => NoLastRow
    case Page(rows, next) => Answer(rows, if next.None? then None else Some(Encoded(next.value)))
  }

  lemma NextIsARow(keys: set<Key>, limit: nat, cursor: Option<Key>)
    ensures var p := PageOf(keys, limit, cursor); p.Page? && p.next.Some? ==> p.next.value in keys
  {
    ListedFacts(Below(keys, cursor));
    var rows := Listed(Below(keys, cursor));
    if |rows| > limit > 0 {
      assert rows[limit - 1] in Elements(rows);
    }
  }

  /** An absent or empty cursor starts at the newest row. */
  function AnswerTo(keys: set<Key>, limit: nat, cursor: Option<string>): Answer
    requires AllStorable(keys)
  {
    if cursor.None? || cursor.value == "" then
      NextIsARow(keys, limit, None);
      Rendered(PageOf(keys, limit, None))
    else
      match Decoded(cursor.value)
      case None => Garbled
      case Some(k) =>
        NextIsARow(keys, limit, Some(k));
        Rendered(PageOf(keys, limit, Some(k)))
  }

  /** An empty cursor is none, and one that cannot be read is refused whatever there is to list. */
  lemma UnreadableCursor(keys: set<Key>, limit: nat, cursor: string)
    requires AllStorable(keys)
    ensures AnswerTo(keys, limit, Some("")) == AnswerTo(keys, limit, None)
    ensures cursor != "" && Decoded(cursor).None? <==> AnswerTo(keys, limit, Some(cursor)) == Garbled
  {}

  /** `list_tasks`: read the cursor, select the page, write the next cursor. */
  method ListTasks(conn: Connection, tenant: Option<TenantId>, state: Option<State>, limit: nat, cursor: Option<string>)
    returns (answer: Answer)
    requires AllStorable(Matching(conn.tasks, tenant, state))
    ensures answer == AnswerTo(Matching(conn.tasks, tenant, state), limit, cursor)
  {
    var after: Option<Key> := None;
    if cursor.Some? && cursor.value != "" {
      after := Decoded(cursor.value);
      if after.None? {
        return Garbled;
      }
    }
    var page := Pagination.ListTasks(conn, tenant, state, limit, after);
    NextIsARow(Matching(conn.tasks, tenant, state), limit, after);
    answer := Rendered(page);
  }

  // ---- following the strings ---------------------------------------------------------------------------------------

  function TextOf(cursor: Option<Key>): Option<string>
    requires cursor.Some? ==> Storable(cursor.value)
  {
    if cursor.None? then None else Some(Encoded(cursor.value))
  }

  /** The string written for a row names that row again. */
  lemma EncodedNames(k: Key)
    requires Storable(k)
    ensures Encoded(k) != "" && Decoded(Encoded(k)) == Some(k)
  {
    InstantOfStamp(k.createdAt);
    CursorRoundTrip(StampOf(k.createdAt), k.id);
    NothingInEmpty();
  }

  lemma NothingInEmpty()
    ensures DecodeCursor("").None?
  {}

  lemma AnswerToText(keys: set<Key>, limit: nat, cursor: Option<Key>)
    requires AllStorable(keys) && (cursor.Some? ==> Storable(cursor.value))
    ensures var p := PageOf(keys, limit, cursor);
      && (p.Page? && p.next.Some? ==> Storable(p.next.value))
      && AnswerTo(keys, limit, TextOf(cursor)) == Rendered(p)
  {
    NextIsARow(keys, limit, cursor);
    if cursor.Some? { EncodedNames(cursor.value); }
  }

  /** The pages of a client that sends back each `next_cursor` as it got it, until there is none. */
  ghost predicate Followed(keys: set<Key>, limit: nat, cursor: Option<string>, pages: seq<seq<Key>>)
    requires AllStorable(keys)
    decreases |pages|
  {
    pages != [] &&
    var a := AnswerTo(keys, limit, cursor);
    && a.Answer? && a.rows == pages[0]
    && (if a.next.None? then |pages| == 1 else Followed(keys, limit, a.next, pages[1..]))
  }

  lemma {:induction false} FollowedIff(keys: set<Key>, limit: nat, cursor: Option<Key>, pages: seq<seq<Key>>)
    requires limit >= 1 && AllStorable(keys) && (cursor.Some? ==> Storable(cursor.value))
    ensures Followed(keys, limit, TextOf(cursor), pages) <==> pages == Pages(keys, limit, cursor)
    decreases |pages|
  {
    var p := PageOf(keys, limit, cursor);
    AnswerToText(keys, limit, cursor);
    if p.next.None? {
      assert pages == [p.rows] <==> |pages| == 1 && pages[0] == p.rows;
    } else if pages != [] {
      FollowedIff(keys, limit, p.next, pages[1..]);
      assert pages == [p.rows] + pages[1..] <==> pages[0] == p.rows;
    }
  }

  /** A client that follows the cursor strings over a fixed table gets one list of pages, and joined they
      are every matching row exactly once, newest first. */
  lemma StringsListEverything(tasks: map<TaskId, Task>, tenant: Option<TenantId>, state: Option<State>, limit: nat,
                              pages: seq<seq<Key>>)
    requires limit >= 1 && AllStorable(Matching(tasks, tenant, state))
    ensures var keys := Matching(tasks, tenant, state);
      && (Followed(keys, limit, None, pages) <==> pages == Pages(keys, limit, None))
      && (Followed(keys, limit, None, pages) ==>
            && Increasing(Joined(pages), Newer) && Elements(Joined(pages)) == keys && |Joined(pages)| == |keys|
            && WellFilled(pages, limit, keys == {}))
  {
    FollowedIff(Matching(tasks, tenant, state), limit, None, pages);
    PaginationIsComplete(tasks, tenant, state, limit);
  }
}
