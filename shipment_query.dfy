/**
 * `get_shipments` as a list computation over the stored shipments: keep the rows every given
 * filter accepts, order them by creation time, then skip `offset` rows and keep at most `limit`.
 */
module ShipmentQuery {
  import opened Wrappers
  import opened Enums
  import opened Models
  import opened Schemas
  import opened SqlLike

  /** `PaginationParams`: plain integers, so a caller may pass negative values. */
  datatype Pagination = Pagination(limit: int, offset: int)

  const DefaultPagination := Pagination(50, 0)

  /** The filter parameters `get_shipments` reads; `None` means the filter is not given. */
  datatype ShipmentQueryParams = ShipmentQueryParams(
    limit: int,
    offset: int,
    dateDesc: bool,
    status: Option<Status>,
    provider: Option<Provider>,
    fromAddress: Option<string>,
    shippingAddress: Option<string>,
    trackingId: Option<string>)

  /** The parameters when the caller gives none: newest first, at most 50 rows. */
  const DefaultQuery := ShipmentQueryParams(50, 0, true, None, None, None, None, None)

  /** The WHERE part of the parameters. */
  datatype ShipmentFilters = ShipmentFilters(
    status: Option<Status>,
    provider: Option<Provider>,
    fromAddress: Option<string>,
    shippingAddress: Option<string>,
    trackingId: Option<string>)

  function FiltersOf(q: ShipmentQueryParams): ShipmentFilters {
    ShipmentFilters(q.status, q.provider, q.fromAddress, q.shippingAddress, q.trackingId)
  }

  /** A wildcard search filter: `column ILIKE '%text%'`, or no filter. */
  predicate TextFilter(filter: Option<string>, value: string) {
    filter.None? || ILike(Wrapped(filter.value), value)
  }

  /** The WHERE clause: every given filter must accept the row. */
  predicate Matches(f: ShipmentFilters, row: StoredShipment) {
    && (f.provider.None? || row.provider == f.provider.value)
    && (f.status.None? || row.status.message == f.status.value)
    && TextFilter(f.fromAddress, row.fromAddress)
    && TextFilter(f.shippingAddress, row.shippingAddress)
    && TextFilter(f.trackingId, row.providerShipmentId)
  }

  /** A search text the filter treats literally, or no search text. */
  predicate IsLiteralFilter(filter: Option<string>) {
    filter.None? || IsLiteral(filter.value)
  }

  /**
   * For search texts without `%` or `_`, the WHERE clause is: the same provider and
   * status when given, and each search text occurring in its column, ignoring ASCII case.
   */
  lemma MatchesMeaning(f: ShipmentFilters, row: StoredShipment)
    requires IsLiteralFilter(f.fromAddress) && IsLiteralFilter(f.shippingAddress) && IsLiteralFilter(f.trackingId)
    ensures Matches(f, row) <==>
      && (f.provider.Some? ==> row.provider == f.provider.value)
      && (f.status.Some? ==> row.status.message == f.status.value)
      && (f.fromAddress.Some? ==> Contains(Lower(f.fromAddress.value), Lower(row.fromAddress)))
      && (f.shippingAddress.Some? ==> Contains(Lower(f.shippingAddress.value), Lower(row.shippingAddress)))
      && (f.trackingId.Some? ==> Contains(Lower(f.trackingId.value), Lower(row.providerShipmentId)))
  {
    if f.fromAddress.Some? {
      ILikeWrappedIsCaseInsensitiveContains(f.fromAddress.value, row.fromAddress);
    }
    if f.shippingAddress.Some? {
      ILikeWrappedIsCaseInsensitiveContains(f.shippingAddress.value, row.shippingAddress);
    }
    if f.trackingId.Some? {
      ILikeWrappedIsCaseInsensitiveContains(f.trackingId.value, row.providerShipmentId);
    }
  }

  /** The rows the WHERE clause keeps, in table order. */
  function Filter(rows: seq<StoredShipment>, f: ShipmentFilters): seq<StoredShipment> {
    if rows == [] then []
    else (if Matches(f, rows[0]) then [rows[0]] else []) + Filter(rows[1..], f)
  }

  /** The WHERE clause keeps each matching row as often as it is stored, and nothing else. */
  lemma {:induction false} FilterKeepsMatches(rows: seq<StoredShipment>, f: ShipmentFilters)
    ensures |Filter(rows, f)| <= |rows|
    ensures forall x :: multiset(Filter(rows, f))[x] == if Matches(f, x) then multiset(rows)[x] else 0
    ensures forall x :: x in Filter(rows, f) ==> x in rows && Matches(f, x)
  {
    if rows != [] {
      FilterKeepsMatches(rows[1..], f);
      assert rows == [rows[0]] + rows[1..];
    }
  }

  /** `a` may come before `b` under the requested order of `created_at`. */
  predicate InOrder(a: StoredShipment, b: StoredShipment, desc: bool) {
    if desc then a.createdAt >= b.createdAt else a.createdAt <= b.createdAt
  }

  predicate IsOrdered(s: seq<StoredShipment>, desc: bool) {
    forall i, j :: 0 <= i < j < |s| ==> InOrder(s[i], s[j], desc)
  }

  /** Insert `x` into a list before the first row it may precede. */
  function Insert(x: StoredShipment, s: seq<StoredShipment>, desc: bool): seq<StoredShipment> {
    if s == [] || InOrder(x, s[0], desc) then [x] + s
    else [s[0]] + Insert(x, s[1..], desc)
  }

  lemma {:induction false} InsertKeepsRows(x: StoredShipment, s: seq<StoredShipment>, desc: bool)
    ensures multiset(Insert(x, s, desc)) == multiset(s) + multiset{x}
  {
    if s != [] && !InOrder(x, s[0], desc) {
      InsertKeepsRows(x, s[1..], desc);
      assert s == [s[0]] + s[1..];
    }
  }

  lemma {:induction false} InsertKeepsOrder(x: StoredShipment, s: seq<StoredShipment>, desc: bool)
    requires IsOrdered(s, desc)
    ensures IsOrdered(Insert(x, s, desc), desc)
  {
    if s != [] && !InOrder(x, s[0], desc) {
      var rest := Insert(x, s[1..], desc);
      InsertKeepsOrder(x, s[1..], desc);
      InsertKeepsRows(x, s[1..], desc);
      forall k | 0 <= k < |rest|
        ensures InOrder(s[0], rest[k], desc)
      {
        assert rest[k] in multiset(rest);
        if rest[k] != x {
          assert rest[k] in multiset(s[1..]);
          var m :| 0 <= m < |s[1..]| && s[1..][m] == rest[k];
          assert s[m + 1] == rest[k];
        }
      }
      assert Insert(x, s, desc) == [s[0]] + rest;
    }
  }

  /** `ORDER BY created_at`, ascending or descending. */
  function Sort(rows: seq<StoredShipment>, desc: bool): seq<StoredShipment> {
    if rows == [] then [] else Insert(rows[0], Sort(rows[1..], desc), desc)
  }

  /** Sorting orders the rows and keeps every one of them. */
  lemma {:induction false} SortOrdersRows(rows: seq<StoredShipment>, desc: bool)
    ensures IsOrdered(Sort(rows, desc), desc)
    ensures multiset(Sort(rows, desc)) == multiset(rows)
    ensures forall x :: x in Sort(rows, desc) ==> x in rows
  {
    if rows != [] {
      var sorted := Sort(rows[1..], desc);
      SortOrdersRows(rows[1..], desc);
      InsertKeepsOrder(rows[0], sorted, desc);
      InsertKeepsRows(rows[0], sorted, desc);
      assert rows == [rows[0]] + rows[1..];
    }
    SameElements(Sort(rows, desc), rows);
  }

  /** Two lists holding the same rows as often as each other hold the same rows. */
  lemma SameElements(a: seq<StoredShipment>, b: seq<StoredShipment>)
    requires multiset(a) == multiset(b)
    ensures forall x :: x in a ==> x in b
  {
    forall x | x in a
      ensures x in b
    {
      assert x in multiset(a);
    }
  }

  /** Where `OFFSET offset` starts on SQLite: a negative offset skips nothing. */
  function PageStart(n: nat, offset: int): (start: nat)
    ensures start <= n
  {
    if offset <= 0 then 0 else if offset <= n then offset else n
  }

  /** `LIMIT limit OFFSET offset` on SQLite, the configured database: a negative limit means no limit. */
  function Page(s: seq<StoredShipment>, limit: int, offset: int): seq<StoredShipment> {
    var start := PageStart(|s|, offset);
    var end := if limit < 0 || start + limit > |s| then |s| else start + limit;
    s[start..end]
  }

  /**
   * `get_shipments`. Every returned row is a stored row that the filters accept; the rows come
   * in the requested order of `created_at`; and a non-negative `limit` bounds their number.
   */
  function GetShipments(rows: seq<StoredShipment>, q: ShipmentQueryParams): (r: seq<StoredShipment>)
    ensures q.limit >= 0 ==> |r| <= q.limit
    ensures forall x :: x in r ==> x in rows && Matches(FiltersOf(q), x)
    ensures IsOrdered(r, q.dateDesc)
  {
    var filtered := Filter(rows, FiltersOf(q));
    FilterKeepsMatches(rows, FiltersOf(q));
    SortOrdersRows(filtered, q.dateDesc);
    PageIsSlice(Sort(filtered, q.dateDesc), q.limit, q.offset, q.dateDesc);
    Page(Sort(filtered, q.dateDesc), q.limit, q.offset)
  }

  /**
   * A page is a run of consecutive rows of `s`, so it keeps their order; a non-negative limit
   * bounds its size, and a negative one keeps every row from the start on.
   */
  lemma PageIsSlice(s: seq<StoredShipment>, limit: int, offset: int, desc: bool)
    ensures limit >= 0 ==> |Page(s, limit, offset)| <= limit
    ensures limit < 0 ==> |Page(s, limit, offset)| == |s| - PageStart(|s|, offset)
    ensures forall x :: x in Page(s, limit, offset) ==> x in s
    ensures IsOrdered(s, desc) ==> IsOrdered(Page(s, limit, offset), desc)
  {
    var start := PageStart(|s|, offset);
    var page := Page(s, limit, offset);
    forall k | 0 <= k < |page|
      ensures page[k] == s[start + k]
    {
    }
  }

  /**
   * With no positive offset, and either no limit (a negative one) or a limit no smaller than
   * the table, every matching row is returned.
   */
  lemma FirstPageIsComplete(rows: seq<StoredShipment>, q: ShipmentQueryParams)
    requires q.offset <= 0 && (q.limit < 0 || q.limit >= |rows|)
    ensures forall x :: multiset(GetShipments(rows, q))[x] == if Matches(FiltersOf(q), x) then multiset(rows)[x] else 0
  {
    var filtered := Filter(rows, FiltersOf(q));
    var sorted := Sort(filtered, q.dateDesc);
    FilterKeepsMatches(rows, FiltersOf(q));
    SortOrdersRows(filtered, q.dateDesc);
    assert |sorted| == |multiset(sorted)|;
    assert Page(sorted, q.limit, q.offset) == sorted;
  }

  /** No two rows of `s` were created at the same time. */
  predicate DistinctCreationTimes(s: seq<StoredShipment>) {
    forall i, j :: 0 <= i < j < |s| ==> s[i].createdAt != s[j].createdAt
  }

  /**
   * Two consecutive pages of one query, taken one after the other, form the page of their
   * combined size. SQL orders rows with equal `created_at` arbitrarily from one query to the
   * next, so this holds only when the matching rows' creation times are distinct. A negative
   * limit or offset is not a page size or position, so both pages are given in non-negative terms.
   */
  lemma ConsecutivePages(rows: seq<StoredShipment>, q: ShipmentQueryParams, first: ShipmentQueryParams, second: ShipmentQueryParams)
    requires DistinctCreationTimes(Filter(rows, FiltersOf(q)))
    requires FiltersOf(first) == FiltersOf(q) && FiltersOf(second) == FiltersOf(q)
    requires first.dateDesc == q.dateDesc && second.dateDesc == q.dateDesc
    requires q.offset >= 0 && first.limit >= 0 && second.limit >= 0
    requires first.offset == q.offset && second.offset == q.offset + first.limit
    requires q.limit == first.limit + second.limit
    ensures GetShipments(rows, first) + GetShipments(rows, second) == GetShipments(rows, q)
  {
    var sorted := Sort(Filter(rows, FiltersOf(q)), q.dateDesc);
    PagesConcatenate(sorted, q.offset, first.limit, second.limit);
  }

  lemma PagesConcatenate(s: seq<StoredShipment>, offset: nat, first: nat, second: nat)
    ensures Page(s, first, offset) + Page(s, second, offset + first) == Page(s, first + second, offset)
  {
    var a := PageStart(|s|, offset);
    var b := if offset + first <= |s| then offset + first else |s|;
    var c := if offset + first + second <= |s| then offset + first + second else |s|;
    assert s[a..b] + s[b..c] == s[a..c];
  }
}
