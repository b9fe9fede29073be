/** The Postgres events repository over an abstract `events` table. */
module EventStore {
  import opened Wrappers
  import opened EventTypes
  import opened Seqs
  import opened Ordering

  datatype StoreError =
    | DbError(cause: string)          // the driver's error, returned as is
    | LimitNotPositive(limit: int)    // "limit must be positive, got %d"
    | QueryFailed(cause: string)      // "failed to query events: %w"

  function LastSeen(e: Event): int {
    e.lastTimestamp
  }

  function InNamespace(namespace: string): Event -> bool {
    (e: Event) => e.namespace == namespace
  }

  /** `SELECT * ... WHERE namespace = $1 ORDER BY last_timestamp DESC LIMIT $2` over the table `rows`. */
  function Query(rows: seq<Event>, namespace: string, limit: int): (r: seq<Event>)
    requires limit > 0
    ensures forall i :: 0 <= i < |r| ==> r[i].namespace == namespace
    ensures SortedDesc(r, LastSeen)
    ensures |r| <= limit
    ensures |r| == limit || |r| == |Filter(rows, InNamespace(namespace))|
    ensures multiset(r) <= multiset(rows)
  {
    var matching := Filter(rows, InNamespace(namespace));
    var sorted := SortDesc(matching, LastSeen);
    var n := if limit < |sorted| then limit else |sorted|;
    TakeSorted(matching, sorted, n, namespace);
    sorted[..n]
  }

  lemma TakeSorted(matching: seq<Event>, sorted: seq<Event>, n: nat, namespace: string)
    requires forall i :: 0 <= i < |matching| ==> matching[i].namespace == namespace
    requires multiset(sorted) == multiset(matching) && SortedDesc(sorted, LastSeen)
    requires n <= |sorted|
    ensures multiset(sorted[..n]) <= multiset(matching)
    ensures SortedDesc(sorted[..n], LastSeen)
    ensures forall i :: 0 <= i < n ==> sorted[..n][i].namespace == namespace
  {
    assert sorted == sorted[..n] + sorted[n..];
    assert multiset(sorted) == multiset(sorted[..n]) + multiset(sorted[n..]);
    forall i | 0 <= i < n
      ensures sorted[..n][i].namespace == namespace
    {
      assert sorted[i] in multiset(matching);
      var j :| 0 <= j < |matching| && matching[j] == sorted[i];
    }
    PrefixSorted(sorted, LastSeen, n);
  }

  /** Every row of the namespace that the limit cut off is no newer than any row returned. */
  lemma QueryReturnsNewest(rows: seq<Event>, namespace: string, limit: int, x: Event, k: nat)
    requires limit > 0 && k < |Query(rows, namespace, limit)|
    requires x.namespace == namespace
    requires multiset(rows)[x] > multiset(Query(rows, namespace, limit))[x]
    ensures x.lastTimestamp <= Query(rows, namespace, limit)[k].lastTimestamp
  {
    var matching := Filter(rows, InNamespace(namespace));
    var sorted := SortDesc(matching, LastSeen);
    var n := if limit < |sorted| then limit else |sorted|;
    FilterCount(rows, InNamespace(namespace), x);
    assert x in multiset(matching) - multiset(sorted[..n]);
    TopK(matching, LastSeen, n, x, k);
  }

  /** The outcome of GetEvents for the table `rows`, given what the database reports for the query. */
  function Select(rows: seq<Event>, namespace: string, limit: int, dbErr: Option<string>): Result<seq<Event>, StoreError> {
    if limit <= 0 then Failure(LimitNotPositive(limit))
    else if dbErr.Some? then Failure(QueryFailed(dbErr.value))
    else Success(Query(rows, namespace, limit))
  }

  /** The `events` table; `dbErr` arguments stand for what the database reports for a statement. */
  class EventTable {
    var rows: seq<Event>

    constructor ()
      ensures rows == []
    {
      rows := [];
    }

    /** SaveEvent: insert one row with all ten fields; a database error is returned unchanged and nothing is stored. */
    method SaveEvent(event: Event, dbErr: Option<string>) returns (err: Option<StoreError>)
      modifies this
      ensures err == if dbErr.Some? then Some(DbError(dbErr.value)) else None
      ensures rows == if dbErr.None? then old(rows) + [event] else old(rows)
    {
      if dbErr.Some? {
        return Some(DbError(dbErr.value));
      }
      rows := rows + [event];
      return None;
    }

    /** GetEvents: reject a non-positive limit before any query, else filter, sort and limit the table. */
    method GetEvents(namespace: string, limit: int, dbErr: Option<string>) returns (r: Result<seq<Event>, StoreError>)
      ensures limit <= 0 ==> r == Failure(LimitNotPositive(limit))
      ensures limit > 0 && dbErr.Some? ==> r == Failure(QueryFailed(dbErr.value))
      ensures limit > 0 && dbErr.None? ==> r == Success(Query(rows, namespace, limit))
      ensures r == Select(rows, namespace, limit, dbErr)
    {
      if limit <= 0 {
        return Failure(LimitNotPositive(limit));
      }
      if dbErr.Some? {
        return Failure(QueryFailed(dbErr.value));
      }
      return Success(Query(rows, namespace, limit));
    }
  }
}
