/** The Postgres `telegram_alerts` repository over an abstract table. */
module AlertRepository {
  import opened Wrappers
  import opened GoTime
  import opened Seqs
  import opened Ordering
  import opened AlertTypes

  /** The text of `sql.ErrNoRows`, which `Get` reports when no row matches. */
  const ErrNoRows := "sql: no rows in result set"

  datatype RepoError =
    | CreateFailed(cause: string)      // "failed to create alert: %w"
    | IdScanFailed(cause: string)      // "failed to get created alert ID: %w"
    | UpdateFailed(cause: string)      // "failed to update alert: %w"
    | DeleteFailed(cause: string)      // "failed to delete alert: %w"
    | GetFailed(cause: string)         // "failed to get alert: %w"
    | ByNamespaceFailed(cause: string) // "failed to get alerts by namespace: %w"
    | AllFailed(cause: string)         // "failed to get all alerts: %w"

  function CreatedAt(a: TelegramAlert): int {
    a.createdAt
  }

  function OfNamespace(namespace: string): TelegramAlert -> bool {
    (a: TelegramAlert) => a.namespace == namespace
  }

  function NotId(id: int): TelegramAlert -> bool {
    (a: TelegramAlert) => a.id != id
  }

  /** No two rows share an id. */
  predicate DistinctIds(rows: seq<TelegramAlert>) {
    forall i, j :: 0 <= i < |rows| && 0 <= j < |rows| && rows[i].id == rows[j].id ==> i == j
  }

  /**
   * The row an insert stores: the five written columns from the input, the id the serial column
   * assigns and the creation time the column default assigns.
   */
  function Inserted(alert: TelegramAlert, id: int, now: Time): (row: TelegramAlert)
    ensures row.botToken == alert.botToken && row.chatId == alert.chatId && row.threadId == alert.threadId
    ensures row.alertType == alert.alertType && row.namespace == alert.namespace
    ensures row.id == id && row.createdAt == now
  {
    alert.(id := id, createdAt := now)
  }

  /** A row after `UPDATE ... SET` the five columns from `alert`; its id and creation time stay. */
  function Overwritten(row: TelegramAlert, alert: TelegramAlert): (r: TelegramAlert)
    ensures r.id == row.id && r.createdAt == row.createdAt
    ensures r == Inserted(alert, row.id, row.createdAt)
  {
    TelegramAlert(row.id, alert.botToken, alert.chatId, alert.threadId, alert.alertType, alert.namespace, row.createdAt)
  }

  /** The table after `UPDATE ... WHERE id = :id`. */
  function Updated(rows: seq<TelegramAlert>, alert: TelegramAlert): (r: seq<TelegramAlert>)
    ensures |r| == |rows|
    ensures forall i :: 0 <= i < |rows| ==> r[i] == if rows[i].id == alert.id then Overwritten(rows[i], alert) else rows[i]
    decreases |rows|
  {
    if rows == [] then []
    else
      var last := rows[|rows| - 1];
      Updated(rows[..|rows| - 1], alert) + [if last.id == alert.id then Overwritten(last, alert) else last]
  }

  /** The row `SELECT * ... WHERE id = $1` finds. */
  function FindById(rows: seq<TelegramAlert>, id: int): (r: Option<TelegramAlert>)
    ensures r.Some? <==> exists i :: 0 <= i < |rows| && rows[i].id == id
    ensures r.Some? ==> r.value in rows && r.value.id == id
    decreases |rows|
  {
    if rows == [] then None
    else if rows[0].id == id then Some(rows[0])
    else
      var r := FindById(rows[1..], id);
      assert forall i :: 0 < i < |rows| ==> rows[i] == rows[1..][i - 1];
      assert r.Some? ==> exists i :: 0 <= i < |rows[1..]| && rows[1..][i].id == id;
      r
  }

  /** With distinct ids, the row found is the one row carrying the id. */
  lemma FindsTheRow(rows: seq<TelegramAlert>, i: nat)
    requires DistinctIds(rows) && i < |rows|
    ensures FindById(rows, rows[i].id) == Some(rows[i])
  {
    var r := FindById(rows, rows[i].id);
    var j :| 0 <= j < |rows| && rows[j] == r.value;
  }

  /** The outcome of GetAlert for the table `rows`. */
  function GetResult(rows: seq<TelegramAlert>, id: int, dbErr: Option<string>): Result<TelegramAlert, RepoError> {
    if dbErr.Some? then Failure(GetFailed(dbErr.value))
    else match FindById(rows, id)
      case None => Failure(GetFailed(ErrNoRows))
      case Some(row) => Success(row)
  }

  /** The outcome of GetAlertsByNamespace for the table `rows`. */
  function ByNamespaceResult(rows: seq<TelegramAlert>, namespace: string, dbErr: Option<string>): Result<seq<TelegramAlert>, RepoError> {
    if dbErr.Some? then Failure(ByNamespaceFailed(dbErr.value))
    else Success(SortDesc(Filter(rows, OfNamespace(namespace)), CreatedAt))
  }

  /** The outcome of GetAllAlerts for the table `rows`. */
  function AllResult(rows: seq<TelegramAlert>, dbErr: Option<string>): Result<seq<TelegramAlert>, RepoError> {
    if dbErr.Some? then Failure(AllFailed(dbErr.value))
    else Success(SortDesc(rows, CreatedAt))
  }

  /** Removing rows keeps the ids distinct. */
  lemma {:induction false} FilterKeepsDistinct(rows: seq<TelegramAlert>, p: TelegramAlert -> bool)
    requires DistinctIds(rows)
    ensures DistinctIds(Filter(rows, p))
    decreases |rows|
  {
    if rows != [] {
      var front := rows[..|rows| - 1];
      var last := rows[|rows| - 1];
      assert rows == front + [last];
      assert DistinctIds(front) by {
        forall i, j | 0 <= i < |front| && 0 <= j < |front| && front[i].id == front[j].id
          ensures i == j
        {
          assert rows[i] == front[i] && rows[j] == front[j];
        }
      }
      FilterKeepsDistinct(front, p);
      var kept := Filter(front, p);
      if p(last) {
        var grown := kept + [last];
        assert Filter(rows, p) == grown;
        forall i, j | 0 <= i < |grown| && 0 <= j < |grown| && grown[i].id == grown[j].id
          ensures i == j
        {
          if i < |kept| && j == |kept| {
            KeptIsFromFront(front, p, i, last);
          } else if j < |kept| && i == |kept| {
            KeptIsFromFront(front, p, j, last);
          } else if i < |kept| && j < |kept| {
            assert kept[i].id == kept[j].id;
          }
        }
      } else {
        assert Filter(rows, p) == kept;
      }
    }
  }

  /** A row kept by a filter of the rows before `last` has an id other than `last`'s. */
  lemma KeptIsFromFront(front: seq<TelegramAlert>, p: TelegramAlert -> bool, i: nat, last: TelegramAlert)
    requires DistinctIds(front + [last])
    requires i < |Filter(front, p)|
    ensures Filter(front, p)[i].id != last.id
  {
    var x := Filter(front, p)[i];
    FilterMember(front, p, x);
    var j :| 0 <= j < |front| && front[j] == x;
    assert (front + [last])[j] == x && (front + [last])[|front|] == last;
  }

  /** Updating never changes an id, so the ids stay distinct. */
  lemma UpdateKeepsIds(rows: seq<TelegramAlert>, alert: TelegramAlert)
    ensures forall i :: 0 <= i < |rows| ==> Updated(rows, alert)[i].id == rows[i].id
  {
  }

  /** An update of an id no row carries leaves the table as it was. */
  lemma UpdateOfMissingIdChangesNothing(rows: seq<TelegramAlert>, alert: TelegramAlert)
    requires forall i :: 0 <= i < |rows| ==> rows[i].id != alert.id
    ensures Updated(rows, alert) == rows
  {
  }

  /** A deletion of an id no row carries leaves the table as it was. */
  lemma {:induction false} DeleteOfMissingIdChangesNothing(rows: seq<TelegramAlert>, id: int)
    requires forall i :: 0 <= i < |rows| ==> rows[i].id != id
    ensures Filter(rows, NotId(id)) == rows
    decreases |rows|
  {
    if rows != [] {
      var front := rows[..|rows| - 1];
      assert rows == front + [rows[|rows| - 1]];
      DeleteOfMissingIdChangesNothing(front, id);
    }
  }

  /** A deletion removes exactly the rows with that id: every other row keeps its multiplicity. */
  lemma DeleteRemovesOnlyThatId(rows: seq<TelegramAlert>, id: int, x: TelegramAlert)
    ensures x.id == id ==> x !in Filter(rows, NotId(id))
    ensures x.id != id ==> multiset(Filter(rows, NotId(id)))[x] == multiset(rows)[x]
  {
    FilterMember(rows, NotId(id), x);
    if x.id != id {
      FilterCount(rows, NotId(id), x);
    }
  }

  /** A listed alert belongs to the table, and for the namespace listing, to that namespace. */
  lemma ListingsAreFromTheTable(rows: seq<TelegramAlert>, namespace: string, x: TelegramAlert)
    ensures x in SortDesc(Filter(rows, OfNamespace(namespace)), CreatedAt) <==> x in rows && x.namespace == namespace
    ensures x in SortDesc(rows, CreatedAt) <==> x in rows
  {
    var matching := Filter(rows, OfNamespace(namespace));
    assert x in SortDesc(matching, CreatedAt) <==> x in multiset(SortDesc(matching, CreatedAt));
    assert x in SortDesc(rows, CreatedAt) <==> x in multiset(SortDesc(rows, CreatedAt));
    FilterMember(rows, OfNamespace(namespace), x);
  }

  /** The `telegram_alerts` table and the serial sequence behind its `id` column. */
  class AlertTable {
    var rows: seq<TelegramAlert>
    var nextId: int

    /** Ids are distinct and below the next serial value. */
    predicate Valid()
      reads this
    {
      DistinctIds(rows) && forall i :: 0 <= i < |rows| ==> rows[i].id < nextId
    }

    constructor ()
      ensures Valid() && rows == [] && nextId == 1
    {
      rows := [];
      nextId := 1;
    }

    /**
     * CreateAlert: `INSERT ... RETURNING id`. A failed statement stores nothing. A failed scan of the
     * returned id is reported although the row is stored. The new id reaches only the method's
     * own copy of `alert`, never the caller.
     */
    method CreateAlert(alert: TelegramAlert, now: Time, dbErr: Option<string>, scanErr: Option<string>)
      returns (err: Option<RepoError>)
      requires Valid()
      modifies this
      ensures Valid()
      ensures dbErr.Some? ==> err == Some(CreateFailed(dbErr.value)) && rows == old(rows) && nextId == old(nextId)
      ensures dbErr.None? ==> rows == old(rows) + [Inserted(alert, old(nextId), now)] && nextId == old(nextId) + 1
      ensures dbErr.None? ==> err == if scanErr.Some? then Some(IdScanFailed(scanErr.value)) else None
    {
      if dbErr.Some? {
        return Some(CreateFailed(dbErr.value));
      }
      // Go passes the alert by value: the scanned id lands in this copy, never in the caller's alert.
      var received := alert;
      var id := nextId;
      var row := Inserted(alert, id, now);
      rows := rows + [row];
      nextId := nextId + 1;
      if scanErr.Some? {
        return Some(IdScanFailed(scanErr.value));
      }
      received := received.(id := id);
      return None;
    }

    /** UpdateAlert: overwrite the five columns of the row with the alert's id; a missing id is no error. */
    method UpdateAlert(alert: TelegramAlert, dbErr: Option<string>) returns (err: Option<RepoError>)
      requires Valid()
      modifies this
      ensures Valid() && nextId == old(nextId)
      ensures err == if dbErr.Some? then Some(UpdateFailed(dbErr.value)) else None
      ensures rows == if dbErr.None? then Updated(old(rows), alert) else old(rows)
    {
      if dbErr.Some? {
        return Some(UpdateFailed(dbErr.value));
      }
      UpdateKeepsIds(rows, alert);
      rows := Updated(rows, alert);
      return None;
    }

    /** DeleteAlert: remove the rows with that id; a missing id is no error. */
    method DeleteAlert(id: int, dbErr: Option<string>) returns (err: Option<RepoError>)
      requires Valid()
      modifies this
      ensures Valid() && nextId == old(nextId)
      ensures err == if dbErr.Some? then Some(DeleteFailed(dbErr.value)) else None
      ensures rows == if dbErr.None? then Filter(old(rows), NotId(id)) else old(rows)
    {
      if dbErr.Some? {
        return Some(DeleteFailed(dbErr.value));
      }
      FilterKeepsDistinct(rows, NotId(id));
      forall x | x in Filter(rows, NotId(id))
        ensures x.id < nextId
      {
        FilterMember(rows, NotId(id), x);
      }
      rows := Filter(rows, NotId(id));
      return None;
    }

    /** GetAlert: the row with the id, or the no-rows error when there is none. */
    method GetAlert(id: int, dbErr: Option<string>) returns (r: Result<TelegramAlert, RepoError>)
      requires Valid()
      ensures dbErr.Some? ==> r == Failure(GetFailed(dbErr.value))
      ensures dbErr.None? ==> (r.Success? <==> exists i :: 0 <= i < |rows| && rows[i].id == id)
      ensures dbErr.None? && r.Failure? ==> r.error == GetFailed(ErrNoRows)
      ensures r.Success? ==> r.value.id == id && forall i :: 0 <= i < |rows| && rows[i].id == id ==> r.value == rows[i]
      ensures r == GetResult(rows, id, dbErr)
    {
      if dbErr.Some? {
        return Failure(GetFailed(dbErr.value));
      }
      var found := FindById(rows, id);
      if found.None? {
        return Failure(GetFailed(ErrNoRows));
      }
      forall i | 0 <= i < |rows| && rows[i].id == id
        ensures found.value == rows[i]
      {
        FindsTheRow(rows, i);
      }
      return Success(found.value);
    }

    /** GetAlertsByNamespace: the namespace's rows, newest first. */
    method GetAlertsByNamespace(namespace: string, dbErr: Option<string>) returns (r: Result<seq<TelegramAlert>, RepoError>)
      ensures dbErr.Some? ==> r == Failure(ByNamespaceFailed(dbErr.value))
      ensures dbErr.None? ==> r.Success?
      ensures r.Success? ==> forall i :: 0 <= i < |r.value| ==> r.value[i].namespace == namespace
      ensures r.Success? ==> multiset(r.value) == multiset(Filter(rows, OfNamespace(namespace)))
      ensures r.Success? ==> SortedDesc(r.value, CreatedAt)
      ensures r == ByNamespaceResult(rows, namespace, dbErr)
    {
      if dbErr.Some? {
        return Failure(ByNamespaceFailed(dbErr.value));
      }
      var matching := Filter(rows, OfNamespace(namespace));
      var sorted := SortDesc(matching, CreatedAt);
      forall i | 0 <= i < |sorted|
        ensures sorted[i].namespace == namespace
      {
        assert sorted[i] in multiset(matching);
        var j :| 0 <= j < |matching| && matching[j] == sorted[i];
      }
      return Success(sorted);
    }

    /** GetAllAlerts: every row, newest first. */
    method GetAllAlerts(dbErr: Option<string>) returns (r: Result<seq<TelegramAlert>, RepoError>)
      ensures dbErr.Some? ==> r == Failure(AllFailed(dbErr.value))
      ensures dbErr.None? ==> r.Success? && multiset(r.value) == multiset(rows) && SortedDesc(r.value, CreatedAt)
      ensures r == AllResult(rows, dbErr)
    {
      if dbErr.Some? {
        return Failure(AllFailed(dbErr.value));
      }
      return Success(SortDesc(rows, CreatedAt));
    }
  }
}
