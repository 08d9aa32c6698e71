/**
 Account statements: pages of ledger entries fetched by keyset while the ledger goes on growing.
 */
module Statement {
  import opened Calendar
  import opened Store
  import opened Ledger

  // The sort key of the last row a page ended with.
  datatype Cursor = Cursor(createdAt: Instant, id: nat)

  datatype Filters = Filters(account: Id, direction: Option<Direction>, from: Option<Instant>, to: Option<Instant>,
                             least: Option<int>, most: Option<int>)

  predicate Matches(f: Filters, e: Entry) {
    && e.leg.account == f.account
    && (f.direction.Some? ==> e.leg.direction == f.direction.value)
    && (f.from.Some? ==> e.leg.createdAt >= f.from.value)
    && (f.to.Some? ==> e.leg.createdAt < f.to.value)
    && (f.least.Some? ==> e.leg.amount >= f.least.value)
    && (f.most.Some? ==> e.leg.amount <= f.most.value)
  }

  // (created_at, id) < cursor
  predicate Below(e: Entry, cursor: Option<Cursor>) {
    cursor.Some? ==>
      e.leg.createdAt < cursor.value.createdAt || (e.leg.createdAt == cursor.value.createdAt && e.id < cursor.value.id)
  }

  predicate Newer(a: Entry, b: Entry) {
    Below(b, Some(KeyOf(a)))
  }

  function KeyOf(e: Entry): Cursor {
    Cursor(e.leg.createdAt, e.id)
  }

  predicate Descending(rows: seq<Entry>) {
    forall i, j :: 0 <= i < j < |rows| ==> Newer(rows[i], rows[j])
  }

  // ---------------------------------------------------------------- one page

  function Where(entries: seq<Entry>, f: Filters, cursor: Option<Cursor>): seq<Entry> {
    if |entries| == 0 then []
    else
      var e := entries[|entries| - 1];
      Where(entries[..|entries| - 1], f, cursor) + if Matches(f, e) && Below(e, cursor) then [e] else []
  }

  function InsertInOrder(e: Entry, rows: seq<Entry>): seq<Entry> {
    if |rows| == 0 || !Newer(rows[0], e) then [e] + rows else [rows[0]] + InsertInOrder(e, rows[1..])
  }

  function OrderBy(rows: seq<Entry>): seq<Entry> {
    if |rows| == 0 then [] else InsertInOrder(rows[|rows| - 1], OrderBy(rows[..|rows| - 1]))
  }

  function Take(rows: seq<Entry>, limit: nat): seq<Entry> {
    if |rows| <= limit then rows else rows[..limit]
  }

  function ListHistory(entries: seq<Entry>, f: Filters, cursor: Option<Cursor>, limit: nat): seq<Entry> {
    Take(OrderBy(Where(entries, f, cursor)), limit)
  }

  // An account's entries have different ids.
  predicate Keyed(entries: seq<Entry>, account: Id) {
    forall i, j :: 0 <= i < j < |entries| && entries[i].leg.account == account && entries[j].leg.account == account ==>
      entries[i].id != entries[j].id
  }

  lemma LedgerIsKeyed(db: Db, account: Id)
    requires Books(db)
    ensures Keyed(db.entries, account)
  {
  }

  lemma {:induction false} WhereFilters(entries: seq<Entry>, f: Filters, cursor: Option<Cursor>)
    ensures forall e :: e in Where(entries, f, cursor) <==> e in entries && Matches(f, e) && Below(e, cursor)
    ensures Keyed(entries, f.account) ==> Keyed(Where(entries, f, cursor), f.account)
  {
    if |entries| > 0 {
      var rest := entries[..|entries| - 1];
      WhereFilters(rest, f, cursor);
      assert entries == rest + [entries[|entries| - 1]];
      if Keyed(entries, f.account) {
        var kept := Where(rest, f, cursor);
        var last := entries[|entries| - 1];
        forall i | 0 <= i < |kept| ensures kept[i].id != last.id || last.leg.account != f.account {
          assert kept[i] in kept;
          var k :| 0 <= k < |rest| && rest[k] == kept[i];
        }
      }
    }
  }

  lemma {:induction false} InsertKeepsOrder(e: Entry, rows: seq<Entry>)
    requires Descending(rows) && forall i :: 0 <= i < |rows| ==> rows[i].id != e.id
    ensures Descending(InsertInOrder(e, rows))
    ensures forall x :: x in InsertInOrder(e, rows) <==> x == e || x in rows
  {
    if |rows| > 0 && Newer(rows[0], e) {
      InsertKeepsOrder(e, rows[1..]);
      var rest := InsertInOrder(e, rows[1..]);
      assert rows == [rows[0]] + rows[1..];
      forall j | 0 <= j < |rest| ensures Newer(rows[0], rest[j]) {
        assert rest[j] in rest;
      }
    }
  }

  lemma {:induction false} OrderByOrders(rows: seq<Entry>, account: Id)
    requires Keyed(rows, account) && forall e :: e in rows ==> e.leg.account == account
    ensures Descending(OrderBy(rows))
    ensures forall e :: e in OrderBy(rows) <==> e in rows
  {
    if |rows| > 0 {
      var rest, last := rows[..|rows| - 1], rows[|rows| - 1];
      assert rows == rest + [last];
      OrderByOrders(rest, account);
      forall i | 0 <= i < |OrderBy(rest)| ensures OrderBy(rest)[i].id != last.id {
        assert OrderBy(rest)[i] in rest;
      }
      InsertKeepsOrder(last, OrderBy(rest));
    }
  }

  // A page is in descending order, holds only rows that match, and leaves out only older ones.
  lemma PageHolds(entries: seq<Entry>, f: Filters, cursor: Option<Cursor>, limit: nat)
    requires Keyed(entries, f.account)
    ensures var page := ListHistory(entries, f, cursor, limit);
            && |page| <= limit && Descending(page)
            && (forall e :: e in page ==> e in entries && Matches(f, e) && Below(e, cursor))
            && (forall e :: e in entries && Matches(f, e) && Below(e, cursor) && e !in page ==>
                  |page| == limit && forall r :: r in page ==> Newer(r, e))
  {
    var found := Where(entries, f, cursor);
    WhereFilters(entries, f, cursor);
    OrderByOrders(found, f.account);
    var sorted := OrderBy(found);
    var page := Take(sorted, limit);
    if |sorted| > limit {
      forall e | e in sorted && e !in page ensures forall r :: r in page ==> Newer(r, e) {
        var k :| 0 <= k < |sorted| && sorted[k] == e;
        assert k >= limit;
      }
    }
  }

  lemma {:induction false} SameSetSameOrder(a: seq<Entry>, b: seq<Entry>)
    requires Descending(a) && Descending(b) && forall e :: e in a <==> e in b
    ensures a == b
  {
    assert |a| > 0 ==> a[0] in b;
    assert |b| > 0 ==> b[0] in a;
    if |a| > 0 {
      assert a[0] == b[0];
      HeadIsNewest(a);
      HeadIsNewest(b);
      SameSetSameOrder(a[1..], b[1..]);
    }
  }

  lemma HeadIsNewest(rows: seq<Entry>)
    requires |rows| > 0 && Descending(rows)
    ensures forall e :: e in rows[1..] <==> e in rows && e != rows[0]
  {
    assert rows == [rows[0]] + rows[1..];
    forall e | e in rows[1..] ensures Newer(rows[0], e) {
      var k :| 0 <= k < |rows| - 1 && rows[1..][k] == e;
      assert rows[k + 1] == e;
    }
  }

  // ---------------------------------------------------------------- the export

  // The table as the k-th page finds it.
  type Table = nat -> seq<Entry>

  // The cursor each page was asked with.
  type Cursors = seq<Option<Cursor>>

  // Rows are only ever appended.
  ghost predicate Grows(table: Table, account: Id) {
    && (forall k: nat :: table(k) <= table(k + 1))
    && (forall k: nat :: Keyed(table(k), account))
  }

  lemma {:induction false} GrowsFrom(table: Table, account: Id, j: nat, k: nat)
    requires Grows(table, account) && j <= k
    ensures table(j) <= table(k)
  {
    if j < k {
      GrowsFrom(table, account, j, k - 1);
      assert table(k - 1) <= table(k - 1 + 1);
    }
  }

  // Everything a page could see is out already, or comes later.
  ghost predicate Covered(table: Table, f: Filters, cursors: Cursors, next: Option<Cursor>, more: bool,
                          out: seq<Entry>) {
    forall k, e :: 0 <= k < |cursors| && e in table(k) && Matches(f, e) && Below(e, cursors[k]) ==>
      e in out || (more && Below(e, next))
  }

  // Only matching rows that some page could see, newest first, all above the next cursor.
  ghost predicate Emitted(table: Table, f: Filters, cursors: Cursors, next: Option<Cursor>, out: seq<Entry>) {
    && Descending(out)
    && (forall e :: e in out ==> Matches(f, e) && (next.Some? ==> !Below(e, next)) && Seen(table, cursors, e))
    && (next.None? ==> out == [])
  }

  ghost predicate Seen(table: Table, cursors: Cursors, e: Entry) {
    exists k :: 0 <= k < |cursors| && e in table(k) && Below(e, cursors[k])
  }

  lemma PageIsEmitted(table: Table, f: Filters, cursors: Cursors, next: Option<Cursor>, out: seq<Entry>,
                      limit: nat)
    requires Grows(table, f.account) && Emitted(table, f, cursors, next, out) && limit > 0
    ensures var page := ListHistory(table(|cursors|), f, next, limit);
            |page| > 0 ==> Emitted(table, f, cursors + [next], Some(KeyOf(page[|page| - 1])), out + page)
  {
    var page := ListHistory(table(|cursors|), f, next, limit);
    PageHolds(table(|cursors|), f, next, limit);
    if |page| > 0 {
      var last := Some(KeyOf(page[|page| - 1]));
      forall e | e in page ensures !Below(e, last) && Seen(table, cursors + [next], e) {
        var k :| 0 <= k < |page| && page[k] == e;
        assert k < |page| - 1 ==> Newer(page[k], page[|page| - 1]);
        assert (cursors + [next])[|cursors|] == next;
      }
      forall e | e in out ensures !Below(e, last) && Seen(table, cursors + [next], e) {
        var k :| 0 <= k < |cursors| && e in table(k) && Below(e, cursors[k]);
        assert (cursors + [next])[k] == cursors[k];
        assert page[|page| - 1] in page;
      }
      forall i, j | 0 <= i < |out| && 0 <= j < |page| ensures Newer(out[i], page[j]) {
        assert out[i] in out && page[j] in page;
      }
    }
  }

  lemma PageIsCovered(table: Table, f: Filters, cursors: Cursors, next: Option<Cursor>, out: seq<Entry>,
                      limit: nat)
    requires Grows(table, f.account) && Covered(table, f, cursors, next, true, out) && limit > 0
    ensures var page := ListHistory(table(|cursors|), f, next, limit);
            var after := if |page| > 0 then Some(KeyOf(page[|page| - 1])) else next;
            Covered(table, f, cursors + [next], after, |page| == limit, out + page)
  {
    var n := |cursors|;
    var page := ListHistory(table(n), f, next, limit);
    PageHolds(table(n), f, next, limit);
    var cursors' := cursors + [next];
    forall k, e | 0 <= k < |cursors'| && e in table(k) && Matches(f, e) && Below(e, cursors'[k])
      ensures e in out + page || (|page| == limit && Below(e, Some(KeyOf(page[|page| - 1]))))
    {
      GrowsFrom(table, f.account, k, n);
      assert e in table(n);
      assert e in out || Below(e, next);
      if e !in out && e !in page {
        assert page[|page| - 1] in page;
      }
    }
  }

  // What an export that fetched its pages with `cursors` has written.
  ghost predicate Exported(table: Table, f: Filters, cursors: Cursors, out: seq<Entry>) {
    && |cursors| > 0 && cursors[0] == None
    && Descending(out)
    && (forall e :: e in out <==> Matches(f, e) && Seen(table, cursors, e))
  }

  function PageOf(table: Table, f: Filters, pageSize: nat, cursors: Cursors, k: nat): seq<Entry>
    requires k < |cursors|
  {
    ListHistory(table(k), f, cursors[k], pageSize)
  }

  // Each page goes on from the last row of the page before, which was full.
  ghost predicate Follows(table: Table, f: Filters, pageSize: nat, cursors: Cursors) {
    forall k :: 0 <= k < |cursors| - 1 ==>
      && |PageOf(table, f, pageSize, cursors, k)| == pageSize > 0
      && cursors[k + 1] == Some(KeyOf(PageOf(table, f, pageSize, cursors, k)[pageSize - 1]))
  }

  // The pages an export asked for: the last one is the only one that came back short.
  ghost predicate Paged(table: Table, f: Filters, pageSize: nat, cursors: Cursors) {
    && |cursors| > 0 && cursors[0] == None && Follows(table, f, pageSize, cursors)
    && |PageOf(table, f, pageSize, cursors, |cursors| - 1)| < pageSize
  }

  lemma FollowsOn(table: Table, f: Filters, pageSize: nat, cursors: Cursors, next: Option<Cursor>)
    requires Follows(table, f, pageSize, cursors) && |cursors| > 0
    requires var page := PageOf(table, f, pageSize, cursors, |cursors| - 1);
             |page| == pageSize > 0 && next == Some(KeyOf(page[pageSize - 1]))
    ensures Follows(table, f, pageSize, cursors + [next])
  {
    var longer := cursors + [next];
    forall k | 0 <= k < |longer| - 1
      ensures && |PageOf(table, f, pageSize, longer, k)| == pageSize > 0
              && longer[k + 1] == Some(KeyOf(PageOf(table, f, pageSize, longer, k)[pageSize - 1]))
    {
      assert PageOf(table, f, pageSize, longer, k) == PageOf(table, f, pageSize, cursors, k);
    }
  }

  // Page after page until one comes back short.  `table(k)` is what the k-th page reads.
  method StatementChunks(table: Table, f: Filters, pageSize: nat) returns (out: seq<Entry>, cursors: Cursors)
    requires pageSize > 0 && Grows(table, f.account)
    ensures Exported(table, f, cursors, out) && Paged(table, f, pageSize, cursors)
  {
    out, cursors := [], [];
    var cursor: Option<Cursor> := None;
    while true
      invariant Emitted(table, f, cursors, cursor, out) && Covered(table, f, cursors, cursor, true, out)
      invariant if |cursors| == 0 then cursor == None else cursor.Some? && cursors[0] == None
      invariant Follows(table, f, pageSize, cursors + [cursor])
      decreases cursor.None?, if cursor.Some? then cursor.value.createdAt else 0, if cursor.Some? then cursor.value.id else 0
    {
      var rows := ListHistory(table(|cursors|), f, cursor, pageSize);
      PageIsEmitted(table, f, cursors, cursor, out, pageSize);
      PageIsCovered(table, f, cursors, cursor, out, pageSize);
      PageHolds(table(|cursors|), f, cursor, pageSize);
      ghost var before, asked := out, cursors;
      cursors := cursors + [cursor];
      assert rows == PageOf(table, f, pageSize, cursors, |cursors| - 1);
      if |rows| == 0 {
        assert out + rows == out;
        EmptyPage(table, f, asked, cursor, out);
        return;
      }
      out := out + rows;
      if |rows| < pageSize {
        return;
      }
      assert rows[|rows| - 1] in rows;
      cursor := Some(KeyOf(rows[|rows| - 1]));
      FollowsOn(table, f, pageSize, cursors, cursor);
    }
  }

  lemma EmptyPage(table: Table, f: Filters, cursors: Cursors, next: Option<Cursor>, out: seq<Entry>)
    requires Emitted(table, f, cursors, next, out)
    ensures forall e :: e in out ==> Seen(table, cursors + [next], e)
  {
    forall e | e in out ensures Seen(table, cursors + [next], e) {
      var k :| 0 <= k < |cursors| && e in table(k) && Below(e, cursors[k]);
      assert (cursors + [next])[k] == cursors[k];
    }
  }

  // ---------------------------------------------------------------- what the reader of a statement gets

  function Listing(entries: seq<Entry>, f: Filters): seq<Entry> {
    OrderBy(Where(entries, f, None))
  }

  lemma ListingIs(entries: seq<Entry>, f: Filters)
    requires Keyed(entries, f.account)
    ensures Descending(Listing(entries, f))
    ensures forall e :: e in Listing(entries, f) <==> e in entries && Matches(f, e)
  {
    WhereFilters(entries, f, None);
    OrderByOrders(Where(entries, f, None), f.account);
  }

  // Whatever is appended meanwhile, a matching row that was there at the start is written exactly
  // once, and no row is written twice.
  lemma NothingSkippedOrRepeated(table: Table, f: Filters, cursors: Cursors, out: seq<Entry>)
    requires Exported(table, f, cursors, out)
    ensures forall e :: e in table(0) && Matches(f, e) ==> e in out && multiset(out)[e] == 1
    ensures forall i, j :: 0 <= i < j < |out| ==> out[i] != out[j]
  {
    forall e | e in table(0) && Matches(f, e) ensures e in out && multiset(out)[e] == 1 {
      assert Below(e, cursors[0]);
      assert Seen(table, cursors, e);
      var i :| 0 <= i < |out| && out[i] == e;
      assert out == out[..i] + [e] + out[i + 1..];
      forall k | 0 <= k < |out| && k != i ensures out[k] != e { }
    }
  }

  // Inside the filters: of the account, in the direction, from the first moment up to but not at the last,
  // and between the two amounts, both included.
  predicate Inside(f: Filters, e: Entry) {
    && e.leg.account == f.account && (f.direction == None || f.direction == Some(e.leg.direction))
    && (match f.from case None => true case Some(from) => from <= e.leg.createdAt)
    && (match f.to case None => true case Some(to) => e.leg.createdAt < to)
    && (match f.least case None => true case Some(least) => least <= e.leg.amount)
    && (match f.most case None => true case Some(most) => e.leg.amount <= most)
  }

  // Only rows inside the filters are written, and of those that were there at the start all of them.
  lemma OnlyWhatWasAskedFor(table: Table, f: Filters, cursors: Cursors, out: seq<Entry>)
    requires Exported(table, f, cursors, out)
    ensures forall e :: e in out ==> Inside(f, e)
    ensures forall e :: e in table(0) && Inside(f, e) ==> e in out
  {
    forall e | e in table(0) && Inside(f, e) ensures e in out {
      assert Matches(f, e);
      NothingSkippedOrRepeated(table, f, cursors, out);
    }
  }

  // On a table nobody writes to, the pages are the filtered, sorted table.
  lemma StillTableIsListed(table: Table, f: Filters, cursors: Cursors, out: seq<Entry>)
    requires Exported(table, f, cursors, out) && Keyed(table(0), f.account)
    requires forall k: nat :: table(k) == table(0)
    ensures out == Listing(table(0), f)
  {
    ListingIs(table(0), f);
    forall e ensures e in out <==> e in Listing(table(0), f) {
      if e in table(0) && Matches(f, e) { assert Below(e, cursors[0]); }
    }
    SameSetSameOrder(out, Listing(table(0), f));
  }

  // ---------------------------------------------------------------- when it is the table at its start

  // A late row: not there at the start, but there when the k-th page is read, and older than the last
  // of the k full pages that the start has.
  predicate LateAt(table: Table, f: Filters, pageSize: nat, k: nat, e: Entry) {
    var rows := Listing(table(0), f);
    && 1 <= k && 1 <= k * pageSize <= |rows|
    && e in table(k) && e !in table(0) && Matches(f, e) && Newer(rows[k * pageSize - 1], e)
  }

  ghost predicate NoneLateBefore(table: Table, f: Filters, pageSize: nat, n: nat) {
    forall k: nat, e :: k < n ==> !LateAt(table, f, pageSize, k, e)
  }

  // The cursor after the first k full pages of the listing.
  function CursorAt(rows: seq<Entry>, pageSize: nat, k: nat): Option<Cursor>
    requires k * pageSize <= |rows|
  {
    if k == 0 || pageSize == 0 then None
    else
      Within(k, pageSize);
      Some(KeyOf(rows[k * pageSize - 1]))
  }

  lemma Within(k: nat, pageSize: nat)
    ensures k >= 1 ==> (k - 1) * pageSize + pageSize == k * pageSize && k * pageSize >= pageSize
  {
  }

  // Nothing up to a row is below its key.
  lemma EarlierIsNotBelow(rows: seq<Entry>, n: nat)
    requires Descending(rows) && 0 < n <= |rows|
    ensures forall i :: 0 <= i < n ==> !Below(rows[i], Some(KeyOf(rows[n - 1])))
  {
    forall i | 0 <= i < n ensures !Below(rows[i], Some(KeyOf(rows[n - 1]))) {
      assert i == n - 1 || Newer(rows[i], rows[n - 1]);
    }
  }

  // The rows of a listing that come after a position are the ones below its key.
  lemma BelowIsAfter(rows: seq<Entry>, pageSize: nat, k: nat)
    requires Descending(rows) && k * pageSize <= |rows|
    ensures forall e :: e in rows[k * pageSize..] <==> e in rows && Below(e, CursorAt(rows, pageSize, k))
  {
    var n := k * pageSize;
    if n > 0 {
      EarlierIsNotBelow(rows, n);
    }
    forall e | e in rows && Below(e, CursorAt(rows, pageSize, k)) ensures e in rows[n..] {
      var i :| 0 <= i < |rows| && rows[i] == e;
      assert i >= n && rows[n..][i - n] == e;
    }
    forall e | e in rows[n..] ensures e in rows && Below(e, CursorAt(rows, pageSize, k)) {
      var i :| 0 <= i < |rows| - n && rows[n..][i] == e;
      assert rows[n + i] == e;
      assert n > 0 ==> Newer(rows[n - 1], rows[n + i]);
    }
  }

  // Without late rows, a page read after k full pages of the listing goes on with the listing.
  lemma PageIsSlice(table: Table, f: Filters, pageSize: nat, k: nat)
    requires Grows(table, f.account) && pageSize > 0 && k * pageSize <= |Listing(table(0), f)|
    requires forall e :: !LateAt(table, f, pageSize, k, e)
    ensures var rows := Listing(table(0), f);
            ListHistory(table(k), f, CursorAt(rows, pageSize, k), pageSize) == Take(rows[k * pageSize..], pageSize)
  {
    var rows := Listing(table(0), f);
    var cursor := CursorAt(rows, pageSize, k);
    ListingIs(table(0), f);
    GrowsFrom(table, f.account, 0, k);
    WhereFilters(table(k), f, cursor);
    OrderByOrders(Where(table(k), f, cursor), f.account);
    BelowIsAfter(rows, pageSize, k);
    Within(k, pageSize);
    var found := OrderBy(Where(table(k), f, cursor));
    forall e ensures e in found <==> e in rows[k * pageSize..] {
      assert !LateAt(table, f, pageSize, k, e);
    }
    SameSetSameOrder(found, rows[k * pageSize..]);
  }

  // Until a late row turns up, every page asked for goes on where the listing is.
  lemma {:induction false} PagesAreSlices(table: Table, f: Filters, pageSize: nat, cursors: Cursors, k: nat)
    requires Grows(table, f.account) && Paged(table, f, pageSize, cursors) && k < |cursors|
    requires NoneLateBefore(table, f, pageSize, k)
    ensures k * pageSize <= |Listing(table(0), f)| && cursors[k] == CursorAt(Listing(table(0), f), pageSize, k)
  {
    if k > 0 {
      var rows := Listing(table(0), f);
      PagesAreSlices(table, f, pageSize, cursors, k - 1);
      PageIsSlice(table, f, pageSize, k - 1);
      Within(k, pageSize);
      assert |PageOf(table, f, pageSize, cursors, k - 1)| == pageSize;
      assert rows[(k - 1) * pageSize..][pageSize - 1] == rows[k * pageSize - 1];
    }
  }

  // Without late rows, the last page ends the listing.
  lemma LastPageEnds(table: Table, f: Filters, pageSize: nat, cursors: Cursors)
    requires Grows(table, f.account) && Paged(table, f, pageSize, cursors)
    requires NoneLateBefore(table, f, pageSize, |cursors|)
    ensures |Listing(table(0), f)| < |cursors| * pageSize
  {
    var last := |cursors| - 1;
    PagesAreSlices(table, f, pageSize, cursors, last);
    PageIsSlice(table, f, pageSize, last);
    Within(last + 1, pageSize);
  }

  // Until then, a page that the listing fills is followed by another.
  lemma FullPagesGoOn(table: Table, f: Filters, pageSize: nat, cursors: Cursors, k: nat)
    requires Grows(table, f.account) && Paged(table, f, pageSize, cursors)
    requires NoneLateBefore(table, f, pageSize, k) && k * pageSize <= |Listing(table(0), f)|
    ensures k < |cursors|
  {
    if |cursors| <= k {
      Multiples(|cursors|, k, pageSize);
      LastPageEnds(table, f, pageSize, cursors);
    }
  }

  lemma Multiples(a: nat, b: nat, n: nat)
    requires a <= b
    ensures a * n <= b * n
  {
  }

  // The first late row is written.
  lemma FirstLateIsWritten(table: Table, f: Filters, pageSize: nat, cursors: Cursors, out: seq<Entry>, k: nat, e: Entry)
    requires Grows(table, f.account) && Exported(table, f, cursors, out) && Paged(table, f, pageSize, cursors)
    requires NoneLateBefore(table, f, pageSize, k) && LateAt(table, f, pageSize, k, e)
    ensures e in out
  {
    FullPagesGoOn(table, f, pageSize, cursors, k);
    PagesAreSlices(table, f, pageSize, cursors, k);
    assert Below(e, cursors[k]);
    assert Seen(table, cursors, e);
  }

  lemma {:induction false} SomeFirstLate(table: Table, f: Filters, pageSize: nat, k: nat, e: Entry)
    returns (first: nat, late: Entry)
    requires LateAt(table, f, pageSize, k, e)
    ensures NoneLateBefore(table, f, pageSize, first) && LateAt(table, f, pageSize, first, late)
    decreases k
  {
    first, late := k, e;
    if !NoneLateBefore(table, f, pageSize, k) {
      var i: nat, x :| i < k && LateAt(table, f, pageSize, i, x);
      first, late := SomeFirstLate(table, f, pageSize, i, x);
    }
  }

  // A page that sees a row the start did not have sees a late row, if none was late before.
  lemma {:induction false} UnlistedIsLate(table: Table, f: Filters, pageSize: nat, cursors: Cursors, k: nat, e: Entry)
    requires Grows(table, f.account) && Paged(table, f, pageSize, cursors) && k < |cursors|
    requires e in table(k) && Below(e, cursors[k]) && Matches(f, e) && e !in table(0)
    requires NoneLateBefore(table, f, pageSize, k)
    ensures LateAt(table, f, pageSize, k, e)
  {
    PagesAreSlices(table, f, pageSize, cursors, k);
    Within(k, pageSize);
  }

  // Rows written during an export are meant to fall outside its window, so that the statement is the
  // table at its start.  It is that exactly when no late row is there in time: a row carries its
  // transaction's start time, so it can be written late with an early time.
  lemma StatementIsTheStartIff(table: Table, f: Filters, pageSize: nat, cursors: Cursors, out: seq<Entry>)
    requires Grows(table, f.account) && Exported(table, f, cursors, out) && Paged(table, f, pageSize, cursors)
    ensures out == Listing(table(0), f) <==> !exists k: nat, e :: LateAt(table, f, pageSize, k, e)
  {
    ListingIs(table(0), f);
    if k: nat, e :| LateAt(table, f, pageSize, k, e) {
      var first, late := SomeFirstLate(table, f, pageSize, k, e);
      FirstLateIsWritten(table, f, pageSize, cursors, out, first, late);
      assert late !in Listing(table(0), f);
    } else {
      forall e ensures e in out <==> e in Listing(table(0), f) {
        if e in out && e !in table(0) {
          var k :| 0 <= k < |cursors| && e in table(k) && Below(e, cursors[k]);
          UnlistedIsLate(table, f, pageSize, cursors, k, e);
        }
        if e in table(0) && Matches(f, e) {
          assert Below(e, cursors[0]);
          assert Seen(table, cursors, e);
        }
      }
      SameSetSameOrder(out, Listing(table(0), f));
    }
  }

  // When everything appended after the first page is at or past the upper bound, nothing is late.
  lemma FixedBoundHolds(table: Table, f: Filters, pageSize: nat, cursors: Cursors, out: seq<Entry>)
    requires Grows(table, f.account) && Exported(table, f, cursors, out) && Paged(table, f, pageSize, cursors)
    requires f.to.Some? && forall k: nat, e :: e in table(k) && e !in table(0) ==> e.leg.createdAt >= f.to.value
    ensures out == Listing(table(0), f)
  {
    StatementIsTheStartIff(table, f, pageSize, cursors, out);
  }
}
