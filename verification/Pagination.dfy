/** Keyset pagination: pages of a table read newest first, each page starting below the last
    row of the one before, while rows come and go between the fetches. */
module Pagination {
  import opened Wrappers

  /** (played_at, id) or (created_at, id); ids make keys unique. */
  datatype Key = Key(time: int, id: nat)

  datatype Row<T> = Row(key: Key, body: T)

  /** SQL's row-value comparison (a.time, a.id) < (b.time, b.id). */
  predicate Older(a: Key, b: Key) {
    a.time < b.time || (a.time == b.time && a.id < b.id)
  }

  predicate Below(k: Key, cursor: Option<Key>) {
    cursor.None? || Older(k, cursor.value)
  }

  /** A table as ORDER BY time DESC, id DESC delivers it. */
  ghost predicate NewestFirst<T>(rows: seq<Row<T>>) {
    forall i, j :: 0 <= i < j < |rows| ==> Older(rows[j].key, rows[i].key)
  }

  function After<T>(rows: seq<Row<T>>, cursor: Option<Key>): seq<Row<T>> {
    if rows == [] then []
    else (if Below(rows[0].key, cursor) then [rows[0]] else []) + After(rows[1..], cursor)
  }

  function Take<T>(rows: seq<T>, n: nat): seq<T> {
    if n <= |rows| then rows[..n] else rows
  }

  /** One page: up to `limit` rows below the cursor, and the next cursor when there are more.
      One row more than the limit is fetched to find out. */
  datatype Page<T> = Page(rows: seq<Row<T>>, next: Option<Key>)

  function PageOf<T>(rows: seq<Row<T>>, cursor: Option<Key>, limit: nat): Page<T>
    requires 1 <= limit
  {
    var fetched := Take(After(rows, cursor), limit + 1);
    if limit < |fetched| then Page(fetched[..limit], Some(fetched[limit - 1].key)) else Page(fetched, None)
  }

  lemma HeadStaysNewest<T>(rows: seq<Row<T>>, rest: seq<Row<T>>)
    requires rows != [] && NewestFirst(rows) && NewestFirst(rest)
    requires forall r :: r in rest ==> r in rows[1..]
    ensures NewestFirst([rows[0]] + rest)
  {
    forall j | 0 <= j < |rest| ensures Older(rest[j].key, rows[0].key) {
      assert rest[j] in rest;
      var k :| 0 <= k < |rows| - 1 && rows[1..][k] == rest[j];
      assert rows[k + 1] == rest[j];
    }
  }

  lemma {:induction false} AfterIsBelow<T>(rows: seq<Row<T>>, cursor: Option<Key>)
    requires NewestFirst(rows)
    ensures NewestFirst(After(rows, cursor))
    ensures forall r :: r in After(rows, cursor) ==> r in rows && Below(r.key, cursor)
    ensures forall r :: r in rows && Below(r.key, cursor) ==> r in After(rows, cursor)
  {
    if rows != [] {
      AfterIsBelow(rows[1..], cursor);
      assert rows == [rows[0]] + rows[1..];
      HeadStaysNewest(rows, After(rows[1..], cursor));
    }
  }

  /** The page is a prefix of what is below the cursor, cut at the limit. */
  lemma PageIsPrefix<T>(rows: seq<Row<T>>, cursor: Option<Key>, limit: nat)
    requires 1 <= limit
    ensures
      var page, after := PageOf(rows, cursor, limit), After(rows, cursor);
      if limit < |after| then page.rows == after[..limit] && page.next == Some(after[limit - 1].key)
      else page.rows == after && page.next == None
  {
  }

  ghost predicate InPage<T>(r: Row<T>, page: Page<T>) {
    r in page.rows && (page.next.Some? ==> !Below(r.key, page.next))
  }

  ghost predicate Later<T>(r: Row<T>, page: Page<T>) {
    page.next.Some? && Below(r.key, page.next)
  }

  lemma CutAtLimit<T>(after: seq<Row<T>>, page: Page<T>, limit: nat)
    requires NewestFirst(after) && 1 <= limit
    requires
      if limit < |after| then page == Page(after[..limit], Some(after[limit - 1].key))
      else page == Page(after, None)
    ensures NewestFirst(page.rows) && |page.rows| <= limit
    ensures forall r :: r in page.rows ==> r in after && InPage(r, page)
    ensures forall r :: r in after ==> InPage(r, page) || Later(r, page)
  {
    forall r | r in page.rows ensures r in after && InPage(r, page) {
      var i :| 0 <= i < |page.rows| && page.rows[i] == r;
      assert after[i] == r;
    }
    forall r | r in after ensures InPage(r, page) || Later(r, page) {
      var i :| 0 <= i < |after| && after[i] == r;
      assert i < |page.rows| ==> page.rows[i] == r;
    }
  }

  /** A page holds the newest rows below the cursor, and every other row below the cursor is
      below the next cursor. */
  lemma PageIsSound<T>(rows: seq<Row<T>>, cursor: Option<Key>, limit: nat)
    requires NewestFirst(rows) && 1 <= limit
    ensures
      var page := PageOf(rows, cursor, limit);
      && NewestFirst(page.rows) && |page.rows| <= limit
      && (forall r :: r in page.rows ==> r in rows && Below(r.key, cursor) && InPage(r, page))
      && (forall r :: r in rows && Below(r.key, cursor) ==> InPage(r, page) || Later(r, page))
  {
    AfterIsBelow(rows, cursor);
    PageIsPrefix(rows, cursor, limit);
    CutAtLimit(After(rows, cursor), PageOf(rows, cursor, limit), limit);
  }

  // ---- a whole traversal -------------------------------------------------------------------

  /** What one fetch sees: the table, and which rows can still be hydrated. */
  datatype Snapshot<!T> = Snapshot(rows: seq<Row<T>>, visible: T -> bool)

  /** Rows whose related objects are gone are skipped, after the cursor was taken. */
  function Kept<T>(rows: seq<Row<T>>, visible: T -> bool): seq<Row<T>> {
    if rows == [] then []
    else (if visible(rows[0].body) then [rows[0]] else []) + Kept(rows[1..], visible)
  }

  /** Everything a client is shown that follows the cursors, fetch after fetch. */
  function Shown<T>(fetches: seq<Snapshot<T>>, cursor: Option<Key>, limit: nat): seq<Row<T>>
    requires 1 <= limit
    decreases |fetches|
  {
    if fetches == [] then []
    else
      var page := PageOf(fetches[0].rows, cursor, limit);
      Kept(page.rows, fetches[0].visible)
      + if page.next.None? then [] else Shown(fetches[1..], page.next, limit)
  }

  /** The number of fetches until no next cursor is given, if that many are made. */
  function Pages<T>(fetches: seq<Snapshot<T>>, cursor: Option<Key>, limit: nat): Option<nat>
    requires 1 <= limit
    decreases |fetches|
  {
    if fetches == [] then None
    else
      var page := PageOf(fetches[0].rows, cursor, limit);
      if page.next.None? then Some(1)
      else
        var rest := Pages(fetches[1..], page.next, limit);
        if rest.Some? then Some(1 + rest.value) else None
  }

  lemma {:induction false} KeptIsSublist<T>(rows: seq<Row<T>>, visible: T -> bool)
    requires NewestFirst(rows)
    ensures NewestFirst(Kept(rows, visible))
    ensures forall r :: r in Kept(rows, visible) ==> r in rows && visible(r.body)
    ensures forall r :: r in rows && visible(r.body) ==> r in Kept(rows, visible)
  {
    if rows != [] {
      KeptIsSublist(rows[1..], visible);
      assert rows == [rows[0]] + rows[1..];
      HeadStaysNewest(rows, Kept(rows[1..], visible));
    }
  }

  /** What follows a page lies below everything on it. */
  lemma PagesInOrder<T>(kept: seq<Row<T>>, rest: seq<Row<T>>, page: Page<T>, cursor: Option<Key>)
    requires NewestFirst(kept) && NewestFirst(rest)
    requires forall r :: r in kept ==> InPage(r, page) && Below(r.key, cursor)
    requires page.next.Some? && forall r :: r in rest ==> Below(r.key, page.next)
    requires Below(page.next.value, cursor)
    ensures NewestFirst(kept + rest) && forall r :: r in kept + rest ==> Below(r.key, cursor)
  {
    forall i, j | 0 <= i < |kept| && 0 <= j < |rest| ensures Older(rest[j].key, kept[i].key) {
      assert kept[i] in kept && rest[j] in rest;
    }
  }

  /** Whatever happens to the table between fetches, what is shown is strictly newest first:
      no row twice, nothing out of order. */
  lemma {:induction false} NoRowTwice<T>(fetches: seq<Snapshot<T>>, cursor: Option<Key>, limit: nat)
    requires 1 <= limit && forall s :: s in fetches ==> NewestFirst(s.rows)
    ensures NewestFirst(Shown(fetches, cursor, limit))
    ensures forall r :: r in Shown(fetches, cursor, limit) ==> Below(r.key, cursor)
    decreases |fetches|
  {
    if fetches != [] {
      var s := fetches[0];
      var page := PageOf(s.rows, cursor, limit);
      PageIsSound(s.rows, cursor, limit);
      KeptIsSublist(page.rows, s.visible);
      if page.next.Some? {
        NoRowTwice(fetches[1..], page.next, limit);
        PagesInOrder(Kept(page.rows, s.visible), Shown(fetches[1..], page.next, limit), page, cursor);
      }
    }
  }

  /** Two rows in the order of the listings: later first, and of the same time the larger id first. */
  predicate LaterFirst<T>(a: Row<T>, b: Row<T>) {
    b.key.time < a.key.time || (b.key.time == a.key.time && b.key.id < a.key.id)
  }

  /** In plain numbers: from tables in that order, whatever changes between the fetches, everything
      is shown in that order. */
  lemma ShownLaterFirst<T>(fetches: seq<Snapshot<T>>, limit: nat)
    requires 1 <= limit
    requires forall s :: s in fetches ==> forall i, j :: 0 <= i < j < |s.rows| ==> LaterFirst(s.rows[i], s.rows[j])
    ensures
      var shown := Shown(fetches, None, limit);
      forall i, j :: 0 <= i < j < |shown| ==> LaterFirst(shown[i], shown[j])
  {
    forall s | s in fetches ensures NewestFirst(s.rows) {
      forall i, j | 0 <= i < j < |s.rows| ensures Older(s.rows[j].key, s.rows[i].key) {
        assert LaterFirst(s.rows[i], s.rows[j]);
      }
    }
    NoRowTwice(fetches, None, limit);
  }

  /** A row that is there, and can be hydrated, at every fetch is shown once the traversal has
      reached its end; with NoRowTwice: exactly once. */
  lemma {:induction false} NoRowMissed<T>(fetches: seq<Snapshot<T>>, cursor: Option<Key>, limit: nat, r: Row<T>)
    requires 1 <= limit && forall s :: s in fetches ==> NewestFirst(s.rows) && r in s.rows && s.visible(r.body)
    requires Below(r.key, cursor) && Pages(fetches, cursor, limit).Some?
    ensures r in Shown(fetches, cursor, limit)
    decreases |fetches|
  {
    var s := fetches[0];
    var page := PageOf(s.rows, cursor, limit);
    PageIsSound(s.rows, cursor, limit);
    KeptIsSublist(page.rows, s.visible);
    assert InPage(r, page) || Later(r, page);
    if r !in page.rows {
      NoRowMissed(fetches[1..], page.next, limit, r);
    }
  }

  /** Together: a row present and visible throughout is shown at exactly one place. */
  lemma ShownExactlyOnce<T>(fetches: seq<Snapshot<T>>, limit: nat, r: Row<T>) returns (i: nat)
    requires 1 <= limit && forall s :: s in fetches ==> NewestFirst(s.rows) && r in s.rows && s.visible(r.body)
    requires Pages(fetches, None, limit).Some?
    ensures i < |Shown(fetches, None, limit)| && Shown(fetches, None, limit)[i] == r
    ensures forall j :: 0 <= j < |Shown(fetches, None, limit)| && j != i ==> Shown(fetches, None, limit)[j].key != r.key
  {
    NoRowMissed(fetches, None, limit, r);
    NoRowTwice(fetches, None, limit);
    var shown := Shown(fetches, None, limit);
    i :| 0 <= i < |shown| && shown[i] == r;
    forall j | 0 <= j < |shown| && j != i ensures shown[j].key != r.key {
      assert if j < i then Older(shown[i].key, shown[j].key) else Older(shown[j].key, shown[i].key);
    }
  }

  // ---- a table that does not change ------------------------------------------------------

  function PagesNeeded(n: nat, limit: nat): nat
    requires 1 <= limit
    decreases n
  {
    if n <= limit then 1 else 1 + PagesNeeded(n - limit, limit)
  }

  /** The number of pages is max(1, ceil(n / limit)): they hold all rows, one less would not. */
  lemma {:induction false} PagesNeededIsCeiling(n: nat, limit: nat)
    requires 1 <= limit
    ensures
      var p := PagesNeeded(n, limit);
      1 <= p && n <= p * limit && (1 < p ==> (p - 1) * limit < n)
    decreases n
  {
    if limit < n {
      PagesNeededIsCeiling(n - limit, limit);
      var q := PagesNeeded(n - limit, limit);
      assert (q + 1) * limit == q * limit + limit;
      assert (q - 1 + 1) * limit == (q - 1) * limit + limit;
    }
  }

  lemma {:induction false} AfterSuffix<T>(rows: seq<Row<T>>, i: nat)
    requires NewestFirst(rows) && 1 <= i <= |rows|
    ensures After(rows, Some(rows[i - 1].key)) == rows[i..]
  {
    if i == 1 {
      AllBelow(rows[1..], Some(rows[0].key));
    } else {
      AfterSuffix(rows[1..], i - 1);
      assert rows[1..][i - 1..] == rows[i..];
    }
  }

  lemma {:induction false} AllBelow<T>(rows: seq<Row<T>>, cursor: Option<Key>)
    requires forall r :: r in rows ==> Below(r.key, cursor)
    ensures After(rows, cursor) == rows
  {
    if rows != [] {
      assert rows[0] in rows;
      AllBelow(rows[1..], cursor);
    }
  }

  lemma StaticPage<T>(rows: seq<Row<T>>, i: nat, cursor: Option<Key>, limit: nat)
    requires NewestFirst(rows) && i <= |rows| && 1 <= limit
    requires cursor == if i == 0 then None else Some(rows[i - 1].key)
    ensures PageOf(rows, cursor, limit)
         == if limit < |rows| - i then Page(rows[i..i + limit], Some(rows[i + limit - 1].key))
            else Page(rows[i..], None)
  {
    if i == 0 {
      AllBelow(rows, cursor);
    } else {
      AfterSuffix(rows, i);
    }
    assert After(rows, cursor) == rows[i..];
    PageIsPrefix(rows, cursor, limit);
    if limit < |rows| - i {
      assert rows[i..][..limit] == rows[i..i + limit];
    }
  }

  ghost predicate AllAlike<T>(fetches: seq<Snapshot<T>>, s: Snapshot<T>) {
    forall k :: 0 <= k < |fetches| ==> fetches[k] == s
  }

  lemma RestAlike<T>(fetches: seq<Snapshot<T>>, s: Snapshot<T>)
    requires AllAlike(fetches, s) && fetches != []
    ensures AllAlike(fetches[1..], s)
  {
  }

  lemma MorePages(n: nat, limit: nat)
    requires 1 <= limit < n
    ensures PagesNeeded(n, limit) == 1 + PagesNeeded(n - limit, limit)
  {
  }

  /** The last page ends the traversal. */
  lemma LastPage<T>(rows: seq<Row<T>>, i: nat, cursor: Option<Key>, limit: nat, fetches: seq<Snapshot<T>>)
    requires NewestFirst(rows) && i <= |rows| && 1 <= limit && |rows| - i <= limit
    requires cursor == if i == 0 then None else Some(rows[i - 1].key)
    requires fetches != [] && fetches[0].rows == rows
    ensures Pages(fetches, cursor, limit) == Some(1)
    ensures Shown(fetches, cursor, limit) == Kept(rows[i..], fetches[0].visible)
  {
    StaticPage(rows, i, cursor, limit);
  }

  lemma NotLast<T>(fetches: seq<Snapshot<T>>, cursor: Option<Key>, limit: nat, page: Page<T>, pages: nat)
    requires 1 <= limit && fetches != [] && page == PageOf(fetches[0].rows, cursor, limit) && page.next.Some?
    requires Pages(fetches[1..], page.next, limit) == Some(pages)
    ensures Pages(fetches, cursor, limit) == Some(1 + pages)
    ensures Shown(fetches, cursor, limit)
         == Kept(page.rows, fetches[0].visible) + Shown(fetches[1..], page.next, limit)
  {
  }

  /** A full page leaves the rest to the next fetches. */
  lemma FullPage<T>(rows: seq<Row<T>>, visible: T -> bool, i: nat, cursor: Option<Key>, limit: nat,
                    fetches: seq<Snapshot<T>>, pages: nat)
    requires NewestFirst(rows) && i <= |rows| && 1 <= limit < |rows| - i
    requires cursor == if i == 0 then None else Some(rows[i - 1].key)
    requires fetches != [] && fetches[0] == Snapshot(rows, visible)
    requires Pages(fetches[1..], Some(rows[i + limit - 1].key), limit) == Some(pages)
    requires Shown(fetches[1..], Some(rows[i + limit - 1].key), limit) == Kept(rows[i + limit..], visible)
    ensures Pages(fetches, cursor, limit) == Some(1 + pages)
    ensures Shown(fetches, cursor, limit) == Kept(rows[i..], visible)
  {
    StaticPage(rows, i, cursor, limit);
    NotLast(fetches, cursor, limit, Page(rows[i..i + limit], Some(rows[i + limit - 1].key)), pages);
    KeptCut(rows, i, limit, visible);
  }

  /** From any point of a table that does not change the traversal shows the rest of it in
      order and ends after exactly as many fetches as full pages need. */
  lemma {:induction false} StaticTraversal<T>(rows: seq<Row<T>>, visible: T -> bool, i: nat,
                                              cursor: Option<Key>, limit: nat, fetches: seq<Snapshot<T>>)
    requires NewestFirst(rows) && i <= |rows| && 1 <= limit
    requires cursor == if i == 0 then None else Some(rows[i - 1].key)
    requires AllAlike(fetches, Snapshot(rows, visible))
    requires PagesNeeded(|rows| - i, limit) <= |fetches|
    ensures Pages(fetches, cursor, limit) == Some(PagesNeeded(|rows| - i, limit))
    ensures Shown(fetches, cursor, limit) == Kept(rows[i..], visible)
    decreases |rows| - i
  {
    assert fetches[0] == Snapshot(rows, visible);
    if limit < |rows| - i {
      RestAlike(fetches, Snapshot(rows, visible));
      MorePages(|rows| - i, limit);
      StaticTraversal(rows, visible, i + limit, Some(rows[i + limit - 1].key), limit, fetches[1..]);
      FullPage(rows, visible, i, cursor, limit, fetches, PagesNeeded(|rows| - (i + limit), limit));
    } else {
      LastPage(rows, i, cursor, limit, fetches);
    }
  }

  lemma KeptCut<T>(rows: seq<Row<T>>, i: nat, limit: nat, visible: T -> bool)
    requires i + limit <= |rows|
    ensures Kept(rows[i..], visible) == Kept(rows[i..i + limit], visible) + Kept(rows[i + limit..], visible)
  {
    KeptConcat(rows[i..i + limit], rows[i + limit..], visible);
    assert rows[i..] == rows[i..i + limit] + rows[i + limit..];
  }

  lemma Regroup<T>(a: seq<T>, b: seq<T>, c: seq<T>)
    ensures a + (b + c) == (a + b) + c
  {
  }

  lemma {:induction false} KeptConcat<T>(a: seq<Row<T>>, b: seq<Row<T>>, visible: T -> bool)
    ensures Kept(a + b, visible) == Kept(a, visible) + Kept(b, visible)
  {
    if a == [] {
      assert a + b == b;
      assert Kept(a, visible) + Kept(b, visible) == Kept(b, visible);
    } else {
      KeptConcat(a[1..], b, visible);
      assert (a + b)[1..] == a[1..] + b;
      Regroup(if visible(a[0].body) then [a[0]] else [], Kept(a[1..], visible), Kept(b, visible));
    }
  }
}
