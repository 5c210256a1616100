// How a campaign walks through its customers (src/services/message.service.js:987-1057): pages behind a cursor,
// regrouped into batches, or batches of explicitly chosen customers.

module CursorPaging {
  import opened Collections
  import opened Options

  // The order of the pages: newest first, then by id.
  datatype Key = Key(createdAt: int, id: int)

  predicate Before(a: Key, b: Key) {
    a.createdAt > b.createdAt || (a.createdAt == b.createdAt && a.id < b.id)
  }

  /** A strict order of all keys, newest first. */
  lemma BeforeIsAnOrder(a: Key, b: Key, c: Key)
    ensures !Before(a, a) && (Before(a, b) && Before(b, c) ==> Before(a, c))
    ensures a != b ==> Before(a, b) || Before(b, a)
    ensures a.createdAt > b.createdAt ==> Before(a, b)
  {}

  ghost predicate Ordered(keys: seq<Key>) {
    forall i, j :: 0 <= i < j < |keys| ==> Before(keys[i], keys[j])
  }

  /** The rows that match the selection, in order, and the other rows that exist. */
  datatype Table = Table(rows: seq<Key>, others: set<Key>)

  // The rows from a place in the order on.
  function From(rows: seq<Key>, place: Key): seq<Key> {
    if rows == [] then [] else if Before(rows[0], place) then From(rows[1..], place) else rows
  }

  /** The database finds the place of the cursor's row whether it still matches or not, takes the matching rows from
      there on, and skips one: the cursor's row, or the row after it if that one no longer matches. Without the cursor's
      row it finds nothing. */
  function Following(table: Table, cursor: Option<Key>): seq<Key> {
    if cursor.None? then table.rows
    else if cursor.value !in table.rows && cursor.value !in table.others then []
    else
      var rows := From(table.rows, cursor.value);
      if rows == [] then [] else rows[1..]
  }

  function Query(table: Table, cursor: Option<Key>, take: nat): seq<Key> {
    var rows := Following(table, cursor);
    if |rows| <= take then rows else rows[..take]
  }

  lemma {:induction false} FromStarts(rows: seq<Key>, place: Key) returns (start: nat)
    requires Ordered(rows)
    ensures start <= |rows| && From(rows, place) == rows[start..]
    ensures forall j :: 0 <= j < |rows| ==> (j < start <==> Before(rows[j], place))
  {
    if rows == [] || !Before(rows[0], place) {
      start := 0;
    } else {
      var rest := FromStarts(rows[1..], place);
      start := rest + 1;
      forall j | 0 < j < |rows| ensures j < start <==> Before(rows[j], place) {
        assert rows[j] == rows[1..][j - 1];
      }
    }
  }

  lemma FollowingAt(rows: seq<Key>, i: nat)
    requires Ordered(rows) && i < |rows|
    ensures Following(Table(rows, {}), Some(rows[i])) == rows[i + 1..]
  {
    var start := FromStarts(rows, rows[i]);
    PlaceOf(rows, i, start);
  }

  lemma PlaceOf(rows: seq<Key>, i: nat, start: nat)
    requires Ordered(rows) && i < |rows| && start <= |rows|
    requires forall j :: 0 <= j < |rows| ==> (j < start <==> Before(rows[j], rows[i]))
    ensures start == i
  {
    var j := Min(start, i);
    assert Before(rows[j], rows[i]) <==> j < start;
  }

  // ---------------------------------------------------------------------------------------------
  // Unchanged data
  // ---------------------------------------------------------------------------------------------

  /** `iterateAllMatchingCampaignCustomers` over unchanged data */
  method IterateAllMatching(table: seq<Key>, take: nat) returns (yielded: seq<Key>)
    requires Ordered(table) && take >= 1
    ensures yielded == table
  {
    var cursor: Option<Key> := None;
    yielded := [];
    while true
      invariant |yielded| <= |table| && yielded == table[..|yielded|]
      invariant cursor == if yielded == [] then None else Some(yielded[|yielded| - 1])
      decreases |table| - |yielded|
    {
      if yielded != [] {
        FollowingAt(table, |yielded| - 1);
      }
      var customers := Query(Table(table, {}), cursor, take);
      if |customers| == 0 {
        return;
      }
      yielded := yielded + customers;
      cursor := Some(customers[|customers| - 1]);
    }
  }

  function Concat<T>(chunks: seq<seq<T>>): seq<T> {
    if chunks == [] then [] else Concat(chunks[..|chunks| - 1]) + chunks[|chunks| - 1]
  }

  /** Every chunk but the last is full, and none is empty. */
  ghost predicate Regrouped<T>(chunks: seq<seq<T>>, size: nat) {
    && (forall i :: 0 <= i < |chunks| - 1 ==> |chunks[i]| == size)
    && (chunks != [] ==> 0 < |chunks[|chunks| - 1]| <= size)
  }

  /** `iterateAllMatchingCampaignCustomerChunks` over unchanged data */
  method IterateAllMatchingChunks(table: seq<Key>, batchSize: nat) returns (chunks: seq<seq<Key>>)
    requires Ordered(table) && batchSize >= 1
    ensures Concat(chunks) == table && Regrouped(chunks, batchSize)
  {
    var customers := IterateAllMatching(table, batchSize);
    var batch: seq<Key> := [];
    chunks := [];
    for i := 0 to |customers|
      invariant Concat(chunks) + batch == customers[..i]
      invariant |batch| < batchSize && forall k :: 0 <= k < |chunks| ==> |chunks[k]| == batchSize
    {
      batch := batch + [customers[i]];
      if |batch| >= batchSize {
        assert (chunks + [batch])[..|chunks|] == chunks;
        chunks := chunks + [batch];
        batch := [];
      }
    }
    assert customers[..|customers|] == customers;
    if |batch| > 0 {
      assert (chunks + [batch])[..|chunks|] == chunks;
      chunks := chunks + [batch];
    }
  }

  /** The two conditions leave no choice: there is one way to regroup a list. */
  lemma {:induction false} RegroupingIsUnique<T>(one: seq<seq<T>>, other: seq<seq<T>>, size: nat)
    requires size >= 1 && Regrouped(one, size) && Regrouped(other, size) && Concat(one) == Concat(other)
    ensures one == other
    decreases |one|
  {
    ChunkTotal(one, size);
    ChunkTotal(other, size);
    if one != [] && other != [] {
      assert |one| == |other| by {
        if |one| < |other| {
          MoreChunks(size, |one|, |other| - 1);
        } else if |other| < |one| {
          MoreChunks(size, |other|, |one| - 1);
        }
      }
      var n := |one| - 1;
      FullPart(one, size);
      FullPart(other, size);
      ChunkTotal(one[..n], size);
      ChunkTotal(other[..n], size);
      assert Concat(one)[..n * size] == Concat(one[..n]) && Concat(one)[n * size..] == one[n];
      assert Concat(other)[..n * size] == Concat(other[..n]) && Concat(other)[n * size..] == other[n];
      RegroupingIsUnique(one[..n], other[..n], size);
      assert one == one[..n] + [one[n]] && other == other[..n] + [other[n]];
    }
  }

  lemma {:induction false} MoreChunks(size: nat, few: nat, many: nat)
    requires few <= many
    ensures few * size <= many * size
    decreases many
  {}

  lemma FullPart<T>(chunks: seq<seq<T>>, size: nat)
    requires size >= 1 && Regrouped(chunks, size) && chunks != []
    ensures Regrouped(chunks[..|chunks| - 1], size)
  {}

  lemma {:induction false} ChunkTotal<T>(chunks: seq<seq<T>>, size: nat)
    requires size >= 1 && Regrouped(chunks, size)
    ensures chunks == [] ==> |Concat(chunks)| == 0
    ensures chunks != [] ==> |Concat(chunks)| == (|chunks| - 1) * size + |chunks[|chunks| - 1]|
  {
    if chunks != [] {
      var n := |chunks| - 1;
      FullPart(chunks, size);
      ChunkTotal(chunks[..n], size);
      if n > 0 {
        assert chunks[..n][n - 1] == chunks[n - 1];
        assert (n - 1) * size + size == n * size;
      }
    }
  }

  // ---------------------------------------------------------------------------------------------
  // Changing data
  // ---------------------------------------------------------------------------------------------

  /** What the loop yields when the pages are read from these successive states of the table. */
  function Drain(tables: seq<Table>, cursor: Option<Key>, take: nat): seq<Key> {
    if tables == [] then []
    else
      var page := Query(tables[0], cursor, take);
      if page == [] then [] else page + Drain(tables[1..], Some(page[|page| - 1]), take)
  }

  // The loop has seen its empty page within these states.
  predicate Finishes(tables: seq<Table>, cursor: Option<Key>, take: nat) {
    tables != [] &&
    var page := Query(tables[0], cursor, take);
    page == [] || Finishes(tables[1..], Some(page[|page| - 1]), take)
  }

  ghost predicate AllOrdered(tables: seq<Table>) {
    forall k :: 0 <= k < |tables| ==> Ordered(tables[k].rows)
  }

  ghost predicate AlwaysThere(tables: seq<Table>, x: Key) {
    forall k :: 0 <= k < |tables| ==> x in tables[k].rows
  }

  /** The page behind the cursor misses no row on the way to x, and not x: the cursor's row still matches, or it exists
      and the row after it, which is skipped in its place, is not x. */
  predicate Serves(table: Table, cursor: Option<Key>, x: Key) {
    cursor.Some? ==>
      || cursor.value in table.rows
      || (cursor.value in table.others
          && (From(table.rows, cursor.value) != [] ==> From(table.rows, cursor.value)[0] != x))
  }

  /** Up to the page that holds x, every cursor serves. */
  predicate CursorsServe(tables: seq<Table>, cursor: Option<Key>, take: nat, x: Key) {
    tables == [] ||
    (Serves(tables[0], cursor, x) &&
     var page := Query(tables[0], cursor, take);
     page == [] || x in page || CursorsServe(tables[1..], Some(page[|page| - 1]), take, x))
  }

  predicate Beyond(cursor: Option<Key>, x: Key) {
    cursor.Some? ==> Before(cursor.value, x)
  }

  predicate Exists(table: Table, cursor: Option<Key>) {
    cursor.Some? ==> cursor.value in table.rows || cursor.value in table.others
  }

  // A page is a stretch of the rows, behind the cursor, and serves what lies in it or behind it.
  lemma QueryIsStretch(table: Table, cursor: Option<Key>, take: nat) returns (start: nat)
    requires Ordered(table.rows) && Exists(table, cursor)
    ensures start <= |table.rows|
    ensures Query(table, cursor, take) == table.rows[start..Min(start + take, |table.rows|)]
    ensures forall j :: start <= j < |table.rows| ==> Beyond(cursor, table.rows[j])
    ensures forall j :: 0 <= j < |table.rows| && Beyond(cursor, table.rows[j]) ==>
              (j >= start <==> Serves(table, cursor, table.rows[j]))
  {
    start := 0;
    if cursor.Some? {
      var first := FromStarts(table.rows, cursor.value);
      start := Min(first + 1, |table.rows|);
      forall j | 0 <= j < |table.rows| && j >= start ensures Before(cursor.value, table.rows[j]) {
        assert Before(table.rows[first], table.rows[j]);
      }
      forall j | 0 <= j < |table.rows| && Beyond(cursor, table.rows[j])
        ensures j >= start <==> Serves(table, cursor, table.rows[j])
      {
        PlaceServes(table, cursor.value, first, j);
      }
    }
    assert Following(table, cursor) == table.rows[start..];
  }

  lemma PlaceServes(table: Table, cursor: Key, first: nat, j: nat)
    requires Ordered(table.rows) && Exists(table, Some(cursor)) && j < |table.rows| && Before(cursor, table.rows[j])
    requires first <= |table.rows| && From(table.rows, cursor) == table.rows[first..]
    requires forall i :: 0 <= i < |table.rows| ==> (i < first <==> Before(table.rows[i], cursor))
    ensures j > first <==> Serves(table, Some(cursor), table.rows[j])
  {
    var rows := table.rows;
    if cursor in rows {
      var i :| 0 <= i < |rows| && rows[i] == cursor;
      PlaceOf(rows, i, first);
    } else {
      assert first <= j && (first == j || Before(rows[first], rows[j]));
    }
  }

  lemma QueryFinds(table: Table, cursor: Option<Key>, take: nat)
    requires Ordered(table.rows) && take >= 1 && Exists(table, cursor)
    ensures var page := Query(table, cursor, take);
            && Ordered(page)
            && (forall i :: 0 <= i < |page| ==> page[i] in table.rows && Beyond(cursor, page[i]))
            && (forall x :: x in table.rows && Beyond(cursor, x) && Serves(table, cursor, x) ==>
                  page != [] && (x in page || Before(page[|page| - 1], x)))
            && (forall x :: x in table.rows && Beyond(cursor, x) && !Serves(table, cursor, x) ==>
                  forall i :: 0 <= i < |page| ==> Before(x, page[i]))
  {
    hide Query, Before, Beyond, Ordered, Serves, Exists;
    var rows := table.rows;
    var page := Query(table, cursor, take);
    var start := QueryIsStretch(table, cursor, take);
    var end := Min(start + take, |rows|);
    StretchIsOrdered(rows, start, end);
    forall x | x in rows && Beyond(cursor, x) && Serves(table, cursor, x)
      ensures page != [] && (x in page || Before(page[|page| - 1], x))
    {
      var j :| 0 <= j < |rows| && rows[j] == x;
      assert j >= start;
      StretchFinds(rows, start, end, j);
    }
    forall x, i | x in rows && Beyond(cursor, x) && !Serves(table, cursor, x) && 0 <= i < |page|
      ensures Before(x, page[i])
    {
      var j :| 0 <= j < |rows| && rows[j] == x;
      OrderedAt(rows, j, start + i);
    }
  }

  lemma OrderedAt(keys: seq<Key>, i: nat, j: nat)
    requires Ordered(keys) && i < j < |keys|
    ensures Before(keys[i], keys[j])
  {}

  lemma StretchIsOrdered(rows: seq<Key>, start: nat, end: nat)
    requires Ordered(rows) && start <= end <= |rows|
    ensures Ordered(rows[start..end])
    ensures forall i :: 0 <= i < end - start ==> rows[start..end][i] == rows[start + i]
  {}

  lemma StretchFinds(rows: seq<Key>, start: nat, end: nat, j: nat)
    requires Ordered(rows) && start < end <= |rows| && start <= j < |rows|
    ensures rows[j] in rows[start..end] || Before(rows[start..end][end - start - 1], rows[j])
  {
    if j < end {
      assert rows[start..end][j - start] == rows[j];
    }
  }

  lemma GoneCursorEndsTheLoop(table: Table, cursor: Option<Key>, take: nat)
    requires !Exists(table, cursor)
    ensures Query(table, cursor, take) == []
  {}

  /** Whatever comes, goes or stops matching between the pages, the loop yields its rows in order, so none twice. */
  lemma {:induction false} DrainKeepsOrder(tables: seq<Table>, cursor: Option<Key>, take: nat)
    requires AllOrdered(tables) && take >= 1
    ensures Ordered(Drain(tables, cursor, take))
    ensures forall i :: 0 <= i < |Drain(tables, cursor, take)| ==> Beyond(cursor, Drain(tables, cursor, take)[i])
    decreases |tables|
  {
    if tables != [] {
      if !Exists(tables[0], cursor) {
        GoneCursorEndsTheLoop(tables[0], cursor, take);
      } else {
        QueryFinds(tables[0], cursor, take);
        var page := Query(tables[0], cursor, take);
        if page != [] {
          var last := Some(page[|page| - 1]);
          DrainKeepsOrder(tables[1..], last, take);
          hide Query, Serves, Exists, Before, Beyond, Ordered;
          PageThenRest(page, Drain(tables[1..], last, take), cursor);
        }
      }
    }
  }

  lemma PageThenRest(page: seq<Key>, rest: seq<Key>, cursor: Option<Key>)
    requires page != [] && Ordered(page) && Ordered(rest)
    requires forall i :: 0 <= i < |page| ==> Beyond(cursor, page[i])
    requires forall i :: 0 <= i < |rest| ==> Beyond(Some(page[|page| - 1]), rest[i])
    ensures Ordered(page + rest)
    ensures forall i :: 0 <= i < |page + rest| ==> Beyond(cursor, (page + rest)[i])
  {
    var last := page[|page| - 1];
    forall i, j | 0 <= i < |page| && 0 <= j < |rest| ensures Before(page[i], rest[j]) {
      assert page[i] == last || Before(page[i], last);
      assert Beyond(Some(last), rest[j]);
    }
  }

  // A row that lies before the cursor is not yielded any more.
  lemma PassedIsPassed(tables: seq<Table>, cursor: Key, take: nat, x: Key)
    requires AllOrdered(tables) && take >= 1 && Before(x, cursor)
    ensures x !in Drain(tables, Some(cursor), take)
  {
    DrainKeepsOrder(tables, Some(cursor), take);
  }

  lemma PageDecides(table: Table, cursor: Option<Key>, take: nat, x: Key)
    requires Ordered(table.rows) && take >= 1 && Exists(table, cursor) && x in table.rows && Beyond(cursor, x)
    ensures var page := Query(table, cursor, take);
            if Serves(table, cursor, x)
            then page != [] && (x in page || Beyond(Some(page[|page| - 1]), x))
            else x !in page && (page != [] ==> Before(x, page[|page| - 1]))
  {
    QueryFinds(table, cursor, take);
    hide Query, Serves, Exists, Ordered;
    assert !Before(x, x);
  }

  lemma {:induction false} DrainFindsExactly(tables: seq<Table>, cursor: Option<Key>, take: nat, x: Key)
    requires AllOrdered(tables) && take >= 1 && Finishes(tables, cursor, take)
    requires AlwaysThere(tables, x) && Beyond(cursor, x)
    ensures x in Drain(tables, cursor, take) <==> CursorsServe(tables, cursor, take, x)
    decreases |tables|
  {
    hide Query, Ordered, Serves, Exists, Before, Beyond;
    if !Exists(tables[0], cursor) {
      GoneCursorEndsTheLoop(tables[0], cursor, take);
      GoneCursorServesNone(tables[0], cursor, x);
    } else {
      PageDecides(tables[0], cursor, take, x);
      var page := Query(tables[0], cursor, take);
      if page != [] {
        var last := page[|page| - 1];
        if !Serves(tables[0], cursor, x) {
          PassedIsPassed(tables[1..], last, take, x);
        } else if x !in page {
          DrainFindsExactly(tables[1..], Some(last), take, x);
        }
      }
    }
  }

  lemma GoneCursorServesNone(table: Table, cursor: Option<Key>, x: Key)
    requires !Exists(table, cursor)
    ensures !Serves(table, cursor, x)
  {}

  /** Rows may come, go, start and stop matching between the pages. A finished loop has yielded a row that matched all
      the time if and only if, up to the page that holds it, the row of every cursor still matched when the next page
      was read, or existed and was not followed by the row itself. What happens to other rows is harmless. */
  lemma CoveredExactly(tables: seq<Table>, take: nat, x: Key)
    requires AllOrdered(tables) && take >= 1 && Finishes(tables, None, take) && AlwaysThere(tables, x)
    ensures x in Drain(tables, None, take) <==> CursorsServe(tables, None, take, x)
  {
    DrainFindsExactly(tables, None, take, x);
  }

  ghost predicate Grows(tables: seq<Table>) {
    forall k, l, x | 0 <= k < l < |tables| && x in tables[k].rows :: x in tables[l].rows
  }

  lemma {:induction false} GrowingKeepsCursors(tables: seq<Table>, cursor: Option<Key>, take: nat, x: Key)
    requires AllOrdered(tables) && Grows(tables) && take >= 1
    requires tables != [] && cursor.Some? ==> cursor.value in tables[0].rows
    ensures CursorsServe(tables, cursor, take, x)
    decreases |tables|
  {
    hide Query, Ordered, Before, Beyond;
    if tables != [] {
      QueryFinds(tables[0], cursor, take);
      var page := Query(tables[0], cursor, take);
      if page != [] {
        assert page[|page| - 1] in tables[0].rows;
        GrowingKeepsCursors(tables[1..], Some(page[|page| - 1]), take, x);
      }
    }
  }

  /** While matching rows are only added, that condition always holds: no row is yielded twice, and every row that was
      there at the start is yielded. */
  lemma GrowingDataIsCovered(tables: seq<Table>, take: nat)
    requires AllOrdered(tables) && Grows(tables) && take >= 1 && Finishes(tables, None, take)
    ensures var yielded := Drain(tables, None, take);
            && (forall i, j :: 0 <= i < j < |yielded| ==> yielded[i] != yielded[j])
            && (forall x :: x in tables[0].rows ==> x in yielded)
  {
    DrainKeepsOrder(tables, None, take);
    forall x | x in tables[0].rows ensures x in Drain(tables, None, take) {
      assert forall k :: 0 < k < |tables| ==> x in tables[k].rows;
      GrowingKeepsCursors(tables, None, take, x);
      CoveredExactly(tables, take, x);
    }
  }

  // ---------------------------------------------------------------------------------------------
  // Explicitly chosen customers
  // ---------------------------------------------------------------------------------------------

  type CustomerId = string

  /** `uniqueCustomerIds`: each id where it first stands, without the empty ones */
  function Unique(ids: seq<CustomerId>): seq<CustomerId> {
    if ids == [] then []
    else
      var before := Unique(ids[..|ids| - 1]);
      var last := ids[|ids| - 1];
      if last == "" || last in before then before else before + [last]
  }

  lemma {:induction false} UniqueIds(ids: seq<CustomerId>)
    ensures Distinct(Unique(ids))
    ensures forall id :: id in Unique(ids) <==> id in ids && id != ""
  {
    if ids != [] {
      UniqueIds(ids[..|ids| - 1]);
      assert ids == ids[..|ids| - 1] + [ids[|ids| - 1]];
    }
  }

  function Without(ids: seq<CustomerId>, excluded: seq<CustomerId>): seq<CustomerId> {
    if ids == [] then []
    else Without(ids[..|ids| - 1], excluded) + (if ids[|ids| - 1] in excluded then [] else [ids[|ids| - 1]])
  }

  lemma {:induction false} WithoutIds(ids: seq<CustomerId>, excluded: seq<CustomerId>)
    requires Distinct(ids)
    ensures Distinct(Without(ids, excluded))
    ensures forall id :: id in Without(ids, excluded) <==> id in ids && id !in excluded
  {
    if ids != [] {
      WithoutIds(ids[..|ids| - 1], excluded);
      assert ids == ids[..|ids| - 1] + [ids[|ids| - 1]];
    }
  }

  // The accessible customers with one of these ids, in the order of the database.
  function FindMany(accessible: seq<CustomerId>, wanted: seq<CustomerId>): seq<CustomerId> {
    if accessible == [] then []
    else FindMany(accessible[..|accessible| - 1], wanted)
         + (if accessible[|accessible| - 1] in wanted then [accessible[|accessible| - 1]] else [])
  }

  lemma {:induction false} FoundIds(accessible: seq<CustomerId>, wanted: seq<CustomerId>)
    requires Distinct(accessible)
    ensures Distinct(FindMany(accessible, wanted))
    ensures forall id :: id in FindMany(accessible, wanted) <==> id in accessible && id in wanted
  {
    if accessible != [] {
      FoundIds(accessible[..|accessible| - 1], wanted);
      assert accessible == accessible[..|accessible| - 1] + [accessible[|accessible| - 1]];
    }
  }

  function Members<T(!new)>(s: seq<T>): set<T> {
    set x | x in s
  }

  lemma {:induction false} DistinctSize<T(!new)>(s: seq<T>)
    requires Distinct(s)
    ensures |Members(s)| == |s|
  {
    if s != [] {
      DistinctSize(s[..|s| - 1]);
      assert s == s[..|s| - 1] + [s[|s| - 1]];
      assert Members(s) == Members(s[..|s| - 1]) + {s[|s| - 1]};
    }
  }

  // The query returns as many customers as it was asked for exactly when all of them are accessible.
  lemma AllFound(accessible: seq<CustomerId>, wanted: seq<CustomerId>)
    requires Distinct(accessible) && Distinct(wanted)
    ensures |FindMany(accessible, wanted)| == |wanted| <==> forall id :: id in wanted ==> id in accessible
    ensures |FindMany(accessible, wanted)| == |wanted| ==> Members(FindMany(accessible, wanted)) == Members(wanted)
  {
    var found := FindMany(accessible, wanted);
    FoundIds(accessible, wanted);
    DistinctSize(found);
    DistinctSize(wanted);
    assert Members(found) <= Members(wanted);
    if |found| == |wanted| {
      SameSize(Members(found), Members(wanted));
      assert forall id :: id in wanted ==> id in Members(wanted);
    }
    if forall id :: id in wanted ==> id in accessible {
      assert Members(found) == Members(wanted);
    }
  }

  lemma SameSize<T>(a: set<T>, b: set<T>)
    requires a <= b && |a| == |b|
    ensures a == b
  {
    assert b == a + (b - a);
    assert |b - a| == 0;
  }

  // `ids.slice(index, index + batchSize)`
  function Slice(ids: seq<CustomerId>, index: nat, size: nat): seq<CustomerId> {
    ids[Min(index, |ids|)..Min(index + size, |ids|)]
  }

  /** The chunk holds exactly these ids, each once, and all of them are accessible. */
  ghost predicate Delivers(chunk: seq<CustomerId>, ids: seq<CustomerId>, accessible: seq<CustomerId>) {
    Distinct(chunk) && Members(chunk) == Members(ids) && forall id :: id in ids ==> id in accessible
  }

  // The ids that the payload chooses.
  function ChosenIds(customerIds: seq<CustomerId>, excludedIds: seq<CustomerId>): seq<CustomerId> {
    Without(Unique(customerIds), Unique(excludedIds))
  }

  lemma ChosenAre(customerIds: seq<CustomerId>, excludedIds: seq<CustomerId>)
    ensures Distinct(ChosenIds(customerIds, excludedIds))
    ensures forall id :: id in ChosenIds(customerIds, excludedIds) <==>
              id in customerIds && id !in excludedIds && id != ""
  {
    UniqueIds(customerIds);
    UniqueIds(excludedIds);
    WithoutIds(Unique(customerIds), Unique(excludedIds));
  }

  /** `iterateExplicitCampaignCustomerChunks`: the chosen customers, a slice of the list at a time, or an error in
      place of the first slice with a customer who is not accessible. */
  method IterateExplicitChunks(customerIds: seq<CustomerId>, excludedIds: seq<CustomerId>, accessible: seq<CustomerId>,
                               batchSize: nat)
    returns (chunks: seq<seq<CustomerId>>, forbidden: bool)
    requires Distinct(accessible) && batchSize >= 1
    ensures forbidden <==> exists id :: id in customerIds && id !in excludedIds && id != "" && id !in accessible
    ensures var ids := ChosenIds(customerIds, excludedIds);
            && (forall k :: 0 <= k < |chunks| ==> Delivers(chunks[k], Slice(ids, k * batchSize, batchSize), accessible))
            && (!forbidden ==> |chunks| * batchSize >= |ids|)
            && (forbidden ==> exists id :: id in Slice(ids, |chunks| * batchSize, batchSize) && id !in accessible)
  {
    var ids := ChosenIds(customerIds, excludedIds);
    ChosenAre(customerIds, excludedIds);
    hide Without, Unique, Distinct, Members, FindMany, ChosenIds, Delivers;
    chunks := [];
    var index := 0;
    while index < |ids|
      invariant index == |chunks| * batchSize
      invariant forall k :: 0 <= k < |chunks| ==> Delivers(chunks[k], Slice(ids, k * batchSize, batchSize), accessible)
      invariant forall i :: 0 <= i < index && i < |ids| ==> ids[i] in accessible
      decreases |ids| - index
    {
      var chunkIds := Slice(ids, index, batchSize);
      var customers := FindMany(accessible, chunkIds);
      SliceFound(ids, index, batchSize, accessible);
      if |customers| != |chunkIds| {
        var id :| id in chunkIds && id !in accessible;
        return chunks, true;
      }
      chunks := chunks + [customers];
      index := index + batchSize;
    }
    forbidden := false;
  }

  lemma SliceFound(ids: seq<CustomerId>, index: nat, size: nat, accessible: seq<CustomerId>)
    requires Distinct(accessible) && Distinct(ids) && index < |ids| && size >= 1
    ensures var chunkIds := Slice(ids, index, size);
            var found := FindMany(accessible, chunkIds);
            && (|found| != |chunkIds| ==> exists id :: id in chunkIds && id !in accessible && id in ids)
            && (|found| == |chunkIds| ==> Delivers(found, chunkIds, accessible))
            && (|found| == |chunkIds| ==> forall i :: index <= i < index + size && i < |ids| ==> ids[i] in accessible)
  {
    var chunkIds := Slice(ids, index, size);
    AllFound(accessible, chunkIds);
    FoundIds(accessible, chunkIds);
    forall i | index <= i < index + size && i < |ids| ensures ids[i] in chunkIds {
      assert ids[i] == chunkIds[i - index];
    }
  }
}
