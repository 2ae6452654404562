/**
 * What the route handlers need of SQLite and Express: a table is a map from
 * primary key to row, a scan returns every row exactly once in an order the
 * engine chooses, and a handler answers with one of a few HTTP responses.
 */
module Db {
  import Sorting
  import ListOps

  /** The HTTP answers the route handlers give. */
  datatype Response<T> =
    | Ok(body: T)              // 200
    | Created(body: T)         // 201
    | NoContent                // 204
    | BadRequest(error: string) // 400
    | NotFound(error: string)  // 404
    | ServerError(error: string) // 500, a failed statement

  /** The rows of a table, as (primary key, row) entries. */
  ghost function Entries<V>(m: map<string, V>): set<(string, V)>
  {
    set k | k in m :: (k, m[k])
  }

  ghost function EntriesOf<V>(m: map<string, V>, ks: set<string>): set<(string, V)>
  {
    set k | k in m && k in ks :: (k, m[k])
  }

  lemma EntriesSplit<V>(m: map<string, V>, ks: set<string>, k: string)
    requires k in ks && k in m
    ensures EntriesOf(m, ks) == EntriesOf(m, ks - {k}) + {(k, m[k])}
    ensures (k, m[k]) !in EntriesOf(m, ks - {k})
    ensures multiset(EntriesOf(m, ks)) == multiset(EntriesOf(m, ks - {k})) + multiset{(k, m[k])}
  {
    assert EntriesOf(m, ks) == EntriesOf(m, ks - {k}) + {(k, m[k])};
  }

  /** The primary key of an entry. */
  function Key<V>(e: (string, V)): string
  {
    e.0
  }

  /**
   * A full table scan (`SELECT * FROM t`): every row once, in an order the
   * engine chooses, so no primary key comes back twice.
   */
  method Scan<V>(m: map<string, V>) returns (rows: seq<(string, V)>)
    ensures multiset(rows) == multiset(Entries(m))
    ensures |rows| == |m|
    ensures ListOps.DistinctKeys(rows, Key)
  {
    var rest := m.Keys;
    rows := [];
    assert EntriesOf(m, rest) == Entries(m);
    while rest != {}
      invariant rest <= m.Keys
      invariant multiset(rows) + multiset(EntriesOf(m, rest)) == multiset(Entries(m))
      invariant |rows| + |rest| == |m|
      invariant forall i :: 0 <= i < |rows| ==> rows[i].0 !in rest
      invariant ListOps.DistinctKeys(rows, Key)
      decreases rest
    {
      var k :| k in rest;
      EntriesSplit(m, rest, k);
      rows := rows + [(k, m[k])];
      rest := rest - {k};
    }
    assert EntriesOf(m, rest) == {};
  }

  /** A row a scan returns is a row of the table, and every row of the table is returned. */
  lemma ScanMembers<V>(m: map<string, V>, rows: seq<(string, V)>, k: string, v: V)
    requires multiset(rows) == multiset(Entries(m))
    ensures (k, v) in rows <==> k in m && m[k] == v
  {
    assert (k, v) in rows <==> (k, v) in multiset(rows);
    if k in m && m[k] == v {
      assert (k, v) in Entries(m);
    }
  }

  /**
   * `SELECT * FROM t ORDER BY …`: every row of the table, sorted by `le`.
   * Rows that tie come back in some order; the model picks one.
   */
  method SelectOrderBy<V(!new)>(m: map<string, V>, le: ((string, V), (string, V)) -> bool)
    returns (rows: seq<(string, V)>)
    requires Sorting.Total(le) && Sorting.Transitive(le)
    ensures |rows| == |m|
    ensures forall i :: 0 <= i < |rows| ==> rows[i].0 in m && m[rows[i].0] == rows[i].1
    ensures forall k :: k in m ==> (k, m[k]) in rows
    ensures Sorting.Sorted(rows, le)
    ensures ListOps.DistinctKeys(rows, Key)
  {
    var scanned := Scan(m);
    rows := Sorting.SortBy(scanned, le);
    Sorting.SortBySorted(scanned, le);
    Sorting.SortByDistinct(scanned, le, Key);
    forall i | 0 <= i < |rows|
      ensures rows[i].0 in m && m[rows[i].0] == rows[i].1
    {
      assert rows[i] in multiset(rows);
      ScanMembers(m, scanned, rows[i].0, rows[i].1);
    }
    forall k | k in m
      ensures (k, m[k]) in rows
    {
      ScanMembers(m, scanned, k, m[k]);
      assert (k, m[k]) in multiset(scanned);
    }
  }
}
