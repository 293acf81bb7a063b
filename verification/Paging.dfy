/** app/repositories/wallet_repository.py:113-140 and app/routers/wallets.py:120-145: a wallet's ledger entries,
    newest first, page by page along a keyset cursor. */
module Paging {
  import opened Results

  datatype Txn = Txn(id: nat, createdAt: int, wallet: nat)

  datatype Page = Page(items: seq<Txn>, nextCursor: Option<nat>)

  /** The sort key (created_at, id), compared as SQL compares row values. */
  predicate Newer(a: Txn, b: Txn) {
    a.createdAt > b.createdAt || (a.createdAt == b.createdAt && a.id > b.id)
  }

  ghost predicate IdsUnique(rows: seq<Txn>) {
    forall i, j :: 0 <= i < j < |rows| ==> rows[i].id != rows[j].id
  }

  ghost predicate NewestFirst(s: seq<Txn>) {
    forall i, j :: 0 <= i < j < |s| ==> Newer(s[i], s[j])
  }

  // ------------------------------------------------------------------ the query

  /** ORDER BY created_at DESC, id DESC: insertion at the right place. */
  function Insert(t: Txn, s: seq<Txn>): (r: seq<Txn>)
    ensures multiset(r) == multiset(s) + multiset{t}
  {
    if |s| == 0 then [t]
    else if Newer(t, s[0]) then [t] + s
    else
      assert s == [s[0]] + s[1..];
      [s[0]] + Insert(t, s[1..])
  }

  /** The rows of a wallet that are older than the anchor, if there is one, newest first. */
  function Select(rows: seq<Txn>, wallet: nat, before: Option<Txn>): seq<Txn> {
    if |rows| == 0 then []
    else
      var last, rest := rows[|rows| - 1], Select(rows[..|rows| - 1], wallet, before);
      if last.wallet == wallet && (before.None? || Newer(before.value, last)) then Insert(last, rest) else rest
  }

  function Find(rows: seq<Txn>, id: nat): (r: Option<Txn>)
    ensures r.Some? ==> r.value in rows && r.value.id == id
    ensures r.None? ==> forall t :: t in rows ==> t.id != id
  {
    if |rows| == 0 then None
    else if rows[|rows| - 1].id == id then Some(rows[|rows| - 1])
    else Find(rows[..|rows| - 1], id)
  }

  /** `list_transactions`: an unknown cursor is ignored. */
  function ListTransactions(rows: seq<Txn>, wallet: nat, limit: nat, cursor: Option<nat>): seq<Txn> {
    var anchor := if cursor.Some? then Find(rows, cursor.value) else None;
    var selected := Select(rows, wallet, anchor);
    if |selected| <= limit then selected else selected[..limit]
  }

  /** The route: there is a next page exactly when this one is full. */
  function GetPage(rows: seq<Txn>, wallet: nat, limit: nat, cursor: Option<nat>): Page
    requires limit >= 1
  {
    var items := ListTransactions(rows, wallet, limit, cursor);
    Page(items, if |items| == limit then Some(items[|items| - 1].id) else None)
  }

  // ------------------------------------------------------------------ sorting

  lemma {:induction false} InsertSorts(t: Txn, s: seq<Txn>)
    requires NewestFirst(s) && forall x :: x in s ==> x.id != t.id
    ensures NewestFirst(Insert(t, s))
  {
    var r := Insert(t, s);
    if |s| > 0 && !Newer(t, s[0]) {
      InsertSorts(t, s[1..]);
      var tail := Insert(t, s[1..]);
      forall j | 0 <= j < |tail| ensures Newer(s[0], tail[j]) {
        assert tail[j] in multiset(tail);
        assert tail[j] == t || tail[j] in s[1..];
        assert s[0] in s;
      }
    }
  }

  /** A wallet's selected rows are exactly its rows older than the anchor, each once, newest first. */
  lemma {:induction false} SelectIsExact(rows: seq<Txn>, wallet: nat, before: Option<Txn>)
    requires IdsUnique(rows)
    ensures NewestFirst(Select(rows, wallet, before))
    ensures forall t :: t in Select(rows, wallet, before)
                   <==> t in rows && t.wallet == wallet && (before.None? || Newer(before.value, t))
  {
    if |rows| > 0 {
      var n := |rows| - 1;
      SelectIsExact(rows[..n], wallet, before);
      assert rows == rows[..n] + [rows[n]];
      var rest := Select(rows[..n], wallet, before);
      forall x | x in rest ensures x.id != rows[n].id {
        var k :| 0 <= k < n && rows[..n][k] == x;
        assert rows[k] == x;
      }
      InsertSorts(rows[n], rest);
      assert forall x :: x in Insert(rows[n], rest) <==> x in multiset(Insert(rows[n], rest));
    }
  }

  lemma Inhabited(s: seq<Txn>)
    ensures |s| > 0 <==> exists x :: x in s
  {
    if |s| > 0 {
      assert s[0] in s;
    }
  }

  /** Two newest-first lists of the same rows are the same list. */
  lemma {:induction false} SameRowsSameOrder(s: seq<Txn>, t: seq<Txn>)
    requires NewestFirst(s) && NewestFirst(t) && forall x :: x in s <==> x in t
    ensures s == t
  {
    Inhabited(s);
    Inhabited(t);
    if |s| > 0 {
      assert s[0] in s && s[0] in t;
      assert t[0] in t && t[0] in s;
      assert s[0] == t[0];
      forall x ensures x in s[1..] <==> x in t[1..] {
        if x in s[1..] {
          assert x in s && x in t && x != s[0];
        }
        if x in t[1..] {
          assert x in t && x in s && x != t[0];
        }
      }
      SameRowsSameOrder(s[1..], t[1..]);
    }
  }

  /** Everything older than the i-th row is everything after it. */
  lemma OlderThanAnchor(rows: seq<Txn>, wallet: nat, i: nat)
    requires IdsUnique(rows) && i < |Select(rows, wallet, None)|
    ensures var all := Select(rows, wallet, None); Select(rows, wallet, Some(all[i])) == all[i + 1..]
  {
    var all := Select(rows, wallet, None);
    SelectIsExact(rows, wallet, None);
    SelectIsExact(rows, wallet, Some(all[i]));
    forall x ensures x in Select(rows, wallet, Some(all[i])) <==> x in all[i + 1..] {
      if x in all {
        var k :| 0 <= k < |all| && all[k] == x;
        assert k > i ==> all[i + 1..][k - i - 1] == x;
      }
      if x in all[i + 1..] {
        var k :| 0 <= k < |all| - i - 1 && all[i + 1..][k] == x;
        assert all[i + 1 + k] == x;
      }
    }
    SameRowsSameOrder(Select(rows, wallet, Some(all[i])), all[i + 1..]);
  }

  /** A cursor that names no row gives the first page. */
  lemma UnknownCursor(rows: seq<Txn>, wallet: nat, limit: nat, id: nat)
    requires limit >= 1 && forall t :: t in rows ==> t.id != id
    ensures GetPage(rows, wallet, limit, Some(id)) == GetPage(rows, wallet, limit, None)
  {
  }

  // ------------------------------------------------------------------ following the cursor

  /** The table as each request finds it: rows are only added, and those added to the wallet since the first
      request have larger keys than what it held then. */
  ghost predicate Grows(tables: nat -> seq<Txn>, wallet: nat) {
    && (forall k :: IdsUnique(tables(k)) && tables(0) <= tables(k))
    && (forall k, t, u :: t in tables(k) && t !in tables(0) && t.wallet == wallet ==>
          u in tables(0) && u.wallet == wallet ==> Newer(t, u))
  }

  lemma Arrivals(tables: nat -> seq<Txn>, wallet: nat, k: nat, t: Txn)
    requires Grows(tables, wallet)
    ensures t in tables(0) ==> t in tables(k)
  {
    if t in tables(0) {
      var i :| 0 <= i < |tables(0)| && tables(0)[i] == t;
      assert tables(k)[i] == t;
    }
  }

  lemma FindById(rows: seq<Txn>, t: Txn)
    requires IdsUnique(rows) && t in rows
    ensures Find(rows, t.id) == Some(t)
  {
    hide Find;
    var r := Find(rows, t.id).value;
    var i :| 0 <= i < |rows| && rows[i] == t;
    var j :| 0 <= j < |rows| && rows[j] == r;
    assert i == j;
  }

  /** Rows that arrive meanwhile do not disturb a later page: what lies beyond an anchor is still what lay
      beyond it at first. */
  lemma ArrivalsStayAhead(tables: nat -> seq<Txn>, wallet: nat, k: nat, i: nat)
    requires Grows(tables, wallet) && i < |Select(tables(0), wallet, None)|
    ensures var all := Select(tables(0), wallet, None);
            && Find(tables(k), all[i].id) == Some(all[i])
            && Select(tables(k), wallet, Some(all[i])) == all[i + 1..]
  {
    hide Find, Select;
    var all := Select(tables(0), wallet, None);
    SelectIsExact(tables(0), wallet, None);
    var anchor := all[i];
    assert anchor in all;
    Arrivals(tables, wallet, k, anchor);
    FindById(tables(k), anchor);
    OlderThanAnchor(tables(0), wallet, i);
    SelectIsExact(tables(0), wallet, Some(anchor));
    SelectIsExact(tables(k), wallet, Some(anchor));
    forall x ensures x in Select(tables(k), wallet, Some(anchor)) <==> x in Select(tables(0), wallet, Some(anchor)) {
      Arrivals(tables, wallet, k, x);
    }
    SameRowsSameOrder(Select(tables(k), wallet, Some(anchor)), Select(tables(0), wallet, Some(anchor)));
  }

  function Chunk(s: seq<Txn>, limit: nat): seq<Txn> {
    if |s| <= limit then s else s[..limit]
  }

  /** The page behind a cursor is the next chunk of the first request's list. */
  lemma PageAfter(tables: nat -> seq<Txn>, wallet: nat, limit: nat, k: nat, n: nat)
    requires limit >= 1 && Grows(tables, wallet) && 0 < n <= |Select(tables(0), wallet, None)|
    ensures var all := Select(tables(0), wallet, None);
            GetPage(tables(k), wallet, limit, Some(all[n - 1].id)).items == Chunk(all[n..], limit)
  {
    hide Select, Find, Grows;
    ArrivalsStayAhead(tables, wallet, k, n - 1);
  }

  /** A client that follows `next_cursor` until there is none visits every row the wallet had at the first
      request exactly once, newest first, and stops after as many pages as it takes. */
  method FollowCursor(tables: nat -> seq<Txn>, wallet: nat, limit: nat) returns (visited: seq<Txn>, pages: nat)
    requires limit >= 1 && Grows(tables, wallet)
    ensures visited == Select(tables(0), wallet, None)
    ensures (pages - 1) * limit <= |visited| < pages * limit
  {
    hide Select, ListTransactions, Grows;
    ghost var all := Select(tables(0), wallet, None);
    FirstPage(tables(0), wallet, limit);
    var page := GetPage(tables(0), wallet, limit, None);
    visited, pages := page.items, 1;
    ghost var fetched := limit;
    PageExtends(all, [], page.items, limit);
    while page.nextCursor.Some?
      invariant |visited| <= |all| && visited == all[..|visited|]
      invariant pages >= 1 && fetched == pages * limit
      invariant if page.nextCursor.Some?
                then |visited| == fetched > 0 && page.nextCursor.value == all[|visited| - 1].id
                else visited == all && fetched - limit <= |visited| < fetched
      decreases |all| - |visited|, page.nextCursor.Some?
    {
      PageAfter(tables, wallet, limit, pages, |visited|);
      page := GetPage(tables(pages), wallet, limit, page.nextCursor);
      PageExtends(all, visited, page.items, limit);
      OneMorePage(pages, limit);
      visited, pages, fetched := visited + page.items, pages + 1, fetched + limit;
    }
    OneMorePage(pages - 1, limit);
  }

  lemma FirstPage(rows: seq<Txn>, wallet: nat, limit: nat)
    requires limit >= 1
    ensures GetPage(rows, wallet, limit, None).items == Chunk(Select(rows, wallet, None)[0..], limit)
  {
    hide Select;
  }

  lemma OneMorePage(pages: nat, limit: nat)
    ensures (pages + 1) * limit == pages * limit + limit
  {
  }

  lemma PageExtends(all: seq<Txn>, visited: seq<Txn>, items: seq<Txn>, limit: nat)
    requires |visited| <= |all| && visited == all[..|visited|]
    requires items == Chunk(all[|visited|..], limit)
    ensures |visited + items| <= |all| && visited + items == all[..|visited + items|]
    ensures |items| < limit ==> visited + items == all
    ensures 0 < |items| ==> (visited + items)[|visited + items| - 1] == items[|items| - 1]
  {
  }
}
