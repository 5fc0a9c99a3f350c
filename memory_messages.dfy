/**
 * The memory-history queries: a user's messages newest first, one page at a
 * time, and a user's messages within an inclusive time range, oldest first.
 * The history table is a sequence of rows in table order; the queries are
 * filter, sort and slice functions over it.
 */
module MemoryMessages {
  import opened Wrappers
  import Json

  /** A history row: the owning user, its timestamp (milliseconds) and an opaque payload. */
  datatype HistoryRow = HistoryRow(id: string, user: string, timestamp: int, content: Json.Value)

  // ---------------------------------------------------------------------
  // Ordering

  /** Whether `a` may come before `b` in newest-first (or oldest-first) order. */
  predicate Precedes(a: HistoryRow, b: HistoryRow, newestFirst: bool) {
    if newestFirst then a.timestamp >= b.timestamp else a.timestamp <= b.timestamp
  }

  predicate Ordered(rows: seq<HistoryRow>, newestFirst: bool) {
    forall i, j :: 0 <= i < j < |rows| ==> Precedes(rows[i], rows[j], newestFirst)
  }

  /** Inserts `x` before the first row it may precede (so ties keep table order). */
  function Insert(x: HistoryRow, rows: seq<HistoryRow>, newestFirst: bool): (r: seq<HistoryRow>)
    ensures multiset(r) == multiset(rows) + multiset{x}
  {
    if rows == [] then [x]
    else if Precedes(x, rows[0], newestFirst) then [x] + rows
    else
      assert rows == [rows[0]] + rows[1..];
      [rows[0]] + Insert(x, rows[1..], newestFirst)
  }

  lemma {:induction false} InsertOrdered(x: HistoryRow, rows: seq<HistoryRow>, newestFirst: bool)
    requires Ordered(rows, newestFirst)
    ensures Ordered(Insert(x, rows, newestFirst), newestFirst)
  {
    if rows != [] && !Precedes(x, rows[0], newestFirst) {
      InsertOrdered(x, rows[1..], newestFirst);
      var rest := Insert(x, rows[1..], newestFirst);
      forall j | 0 <= j < |rest|
        ensures Precedes(rows[0], rest[j], newestFirst)
      {
        assert rest[j] in multiset(rest);
        if rest[j] != x {
          assert rest[j] in multiset(rows[1..]);
          var k :| 0 <= k < |rows[1..]| && rows[1..][k] == rest[j];
          assert rows[k + 1] == rest[j];
        }
      }
    }
  }

  /** Stable insertion sort by timestamp. */
  function Sort(rows: seq<HistoryRow>, newestFirst: bool): (r: seq<HistoryRow>)
    ensures multiset(r) == multiset(rows)
  {
    if rows == [] then []
    else
      assert rows == [rows[0]] + rows[1..];
      Insert(rows[0], Sort(rows[1..], newestFirst), newestFirst)
  }

  lemma {:induction false} SortOrdered(rows: seq<HistoryRow>, newestFirst: bool)
    ensures Ordered(Sort(rows, newestFirst), newestFirst)
  {
    if rows != [] {
      SortOrdered(rows[1..], newestFirst);
      InsertOrdered(rows[0], Sort(rows[1..], newestFirst), newestFirst);
    }
  }

  // ---------------------------------------------------------------------
  // Filtering

  /** The rows `keep` accepts, in table order. */
  function Where(rows: seq<HistoryRow>, keep: HistoryRow -> bool): (r: seq<HistoryRow>)
    ensures forall i :: 0 <= i < |r| ==> keep(r[i])
    ensures forall x :: multiset(r)[x] == if keep(x) then multiset(rows)[x] else 0
  {
    if rows == [] then []
    else
      assert rows == [rows[0]] + rows[1..];
      (if keep(rows[0]) then [rows[0]] else []) + Where(rows[1..], keep)
  }

  // ---------------------------------------------------------------------
  // getMemoryMessages

  /** The user's rows, newest first. */
  function Listing(rows: seq<HistoryRow>, userId: string): seq<HistoryRow> {
    Sort(Where(rows, (x: HistoryRow) => x.user == userId), true)
  }

  /** The listing holds each of the user's rows as often as the table does, and nothing else. */
  lemma ListingPermutation(rows: seq<HistoryRow>, userId: string)
    ensures forall x :: multiset(Listing(rows, userId))[x] == if x.user == userId then multiset(rows)[x] else 0
  {
  }

  lemma ListingOwned(rows: seq<HistoryRow>, userId: string)
    ensures forall i :: 0 <= i < |Listing(rows, userId)| ==> Listing(rows, userId)[i].user == userId
  {
    var listing := Listing(rows, userId);
    ListingPermutation(rows, userId);
    forall i | 0 <= i < |listing| ensures listing[i].user == userId {
      assert listing[i] in multiset(listing);
    }
  }

  lemma ListingOrdered(rows: seq<HistoryRow>, userId: string)
    ensures Ordered(Listing(rows, userId), true)
  {
    SortOrdered(Where(rows, (x: HistoryRow) => x.user == userId), true);
  }

  function Min(a: int, b: int): int {
    if a <= b then a else b
  }

  /** How many rows of an n-row listing the first `count` pages of size `limit` cover. */
  function Covered(count: nat, limit: nat, n: nat): (r: nat)
    ensures r <= n
  {
    Min(count * limit, n)
  }

  /** The rows LIMIT `limit` OFFSET `offset` returns from an ordered result. */
  function Window(ordered: seq<HistoryRow>, offset: nat, limit: nat): (r: seq<HistoryRow>)
    ensures |r| <= limit
    ensures forall i :: 0 <= i < |r| ==> offset + i < |ordered| && r[i] == ordered[offset + i]
  {
    ordered[Min(offset, |ordered|)..Min(offset + limit, |ordered|)]
  }

  /**
   * getMemoryMessages. A negative LIMIT or OFFSET is refused by the database
   * (the query schema lets both through), which is the error case here.
   */
  function MemoryMessages(rows: seq<HistoryRow>, userId: string, limit: int, page: int)
    : (r: Result<seq<HistoryRow>, string>)
    ensures r.Err? <==> limit < 0 || Offset(page, limit) < 0
    ensures limit < 0 ==> r == Err("LIMIT must not be negative")
    ensures r.Ok? ==> |r.value| <= limit
  {
    if limit < 0 then Err("LIMIT must not be negative")
    else if Offset(page, limit) < 0 then Err("OFFSET must not be negative")
    else Ok(Window(Listing(rows, userId), Offset(page, limit), limit))
  }

  /** The number of rows skipped before page `page`. */
  function Offset(page: int, limit: int): (r: int)
    ensures page >= 1 && limit >= 0 ==> 0 <= r && r + limit == page * limit
  {
    (page - 1) * limit
  }

  /** A page holds only the user's rows, newest first, skipping the first (page-1)*limit. */
  lemma PageRows(rows: seq<HistoryRow>, userId: string, limit: nat, page: nat, i: nat)
    requires page >= 1
    requires i < |MemoryMessages(rows, userId, limit, page).value|
    ensures var listing := Listing(rows, userId);
            var r := MemoryMessages(rows, userId, limit, page).value;
            && Offset(page, limit) + i < |listing|
            && r[i] == listing[Offset(page, limit) + i]
            && r[i].user == userId
  {
    var listing := Listing(rows, userId);
    ListingOwned(rows, userId);
    var offset: nat := Offset(page, limit);
    assert MemoryMessages(rows, userId, limit, page) == Ok(Window(listing, offset, limit));
  }

  lemma WindowOrdered(ordered: seq<HistoryRow>, offset: nat, limit: nat, newestFirst: bool)
    requires Ordered(ordered, newestFirst)
    ensures Ordered(Window(ordered, offset, limit), newestFirst)
  {
    var r := Window(ordered, offset, limit);
    forall i, j | 0 <= i < j < |r| ensures Precedes(r[i], r[j], newestFirst) {
      assert r[i] == ordered[offset + i] && r[j] == ordered[offset + j];
    }
  }

  /** Within a page, rows are newest first. */
  lemma PageOrdered(rows: seq<HistoryRow>, userId: string, limit: nat, page: nat)
    requires page >= 1
    ensures Ordered(MemoryMessages(rows, userId, limit, page).value, true)
  {
    ListingOrdered(rows, userId);
    var offset: nat := Offset(page, limit);
    assert MemoryMessages(rows, userId, limit, page) == Ok(Window(Listing(rows, userId), offset, limit));
    WindowOrdered(Listing(rows, userId), offset, limit, true);
  }

  /** Page 0 with a positive limit asks for a negative offset. */
  lemma PageZeroRefused(rows: seq<HistoryRow>, userId: string, limit: int)
    requires limit > 0
    ensures MemoryMessages(rows, userId, limit, 0) == Err("OFFSET must not be negative")
  {
  }

  /** The first `count` pages, concatenated. */
  function Pages(rows: seq<HistoryRow>, userId: string, limit: nat, count: nat): seq<HistoryRow> {
    if count == 0 then []
    else Pages(rows, userId, limit, count - 1) + MemoryMessages(rows, userId, limit, count).value
  }

  /** The first `count` windows of an ordered result, concatenated. */
  function Windows(ordered: seq<HistoryRow>, limit: nat, count: nat): seq<HistoryRow> {
    if count == 0 then []
    else
      Windows(ordered, limit, count - 1) + Window(ordered, Offset(count, limit), limit)
  }

  lemma {:induction false} WindowsArePrefix(ordered: seq<HistoryRow>, limit: nat, count: nat)
    ensures Windows(ordered, limit, count) == ordered[..Covered(count, limit, |ordered|)]
  {
    if count > 0 {
      WindowsArePrefix(ordered, limit, count - 1);
      var offset: nat := Offset(count, limit);
      var lo, hi := Min(offset, |ordered|), Min(offset + limit, |ordered|);
      assert Window(ordered, offset, limit) == ordered[lo..hi];
      assert ordered[..lo] + ordered[lo..hi] == ordered[..hi];
    }
  }

  lemma {:induction false} PagesAreWindows(rows: seq<HistoryRow>, userId: string, limit: nat, count: nat)
    ensures Pages(rows, userId, limit, count) == Windows(Listing(rows, userId), limit, count)
  {
    if count > 0 {
      var offset := Offset(count, limit);
      assert offset >= 0;
      PagesAreWindows(rows, userId, limit, count - 1);
    }
  }

  /** Pages 1..count, concatenated, are the first count*limit rows of the listing. */
  lemma PagesArePrefix(rows: seq<HistoryRow>, userId: string, limit: nat, count: nat)
    ensures Pages(rows, userId, limit, count)
            == Listing(rows, userId)[..Covered(count, limit, |Listing(rows, userId)|)]
  {
    PagesAreWindows(rows, userId, limit, count);
    WindowsArePrefix(Listing(rows, userId), limit, count);
  }

  // ---------------------------------------------------------------------
  // getMemoryMessagesFilter

  predicate InRange(x: HistoryRow, userId: string, from: int, to: int) {
    x.user == userId && from <= x.timestamp <= to
  }

  /** getMemoryMessagesFilter: the user's rows with from <= timestamp <= to, oldest first. */
  function MemoryMessagesFilter(rows: seq<HistoryRow>, userId: string, from: int, to: int)
    : (r: seq<HistoryRow>)
    ensures forall x :: multiset(r)[x] == if InRange(x, userId, from, to) then multiset(rows)[x] else 0
    ensures Ordered(r, false)
  {
    var kept := Where(rows, (x: HistoryRow) => InRange(x, userId, from, to));
    SortOrdered(kept, false);
    Sort(kept, false)
  }

  /** Every returned row is the user's and within the range, both ends included. */
  lemma FilterSound(rows: seq<HistoryRow>, userId: string, from: int, to: int, i: nat)
    requires i < |MemoryMessagesFilter(rows, userId, from, to)|
    ensures InRange(MemoryMessagesFilter(rows, userId, from, to)[i], userId, from, to)
  {
    var r := MemoryMessagesFilter(rows, userId, from, to);
    assert r[i] in multiset(r);
  }

  /** A row of the table that qualifies is returned. */
  lemma FilterComplete(rows: seq<HistoryRow>, userId: string, from: int, to: int, x: HistoryRow)
    requires x in rows && InRange(x, userId, from, to)
    ensures x in MemoryMessagesFilter(rows, userId, from, to)
  {
    assert x in multiset(rows);
  }

  /** An empty range gives an empty result, not an error. */
  lemma EmptyRange(rows: seq<HistoryRow>, userId: string, from: int, to: int)
    requires from > to
    ensures MemoryMessagesFilter(rows, userId, from, to) == []
  {
  }
}
