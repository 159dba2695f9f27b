/**
 * `BigQueryError`: the exception built from the per-row errors `insert_rows_json` reports.
 * Its payload is every row's `errors` list, concatenated in order.
 */
module BigQueryErrors {

  /** One entry of the error list: the row index and that row's error details. */
  datatype RowError = RowError(index: nat, errors: seq<string>)

  /** A reference definition of the payload: the lists of all rows, one after another. */
  function Flatten(rows: seq<RowError>): seq<string>
  {
    if rows == [] then [] else rows[0].errors + Flatten(rows[1..])
  }

  /** The number of error details over all rows. */
  function TotalErrors(rows: seq<RowError>): nat
  {
    if rows == [] then 0 else |rows[0].errors| + TotalErrors(rows[1..])
  }

  lemma {:induction false} FlattenAppend(a: seq<RowError>, b: seq<RowError>)
    ensures Flatten(a + b) == Flatten(a) + Flatten(b)
  {
    if a == [] {
      assert a + b == b;
    } else {
      assert (a + b)[0] == a[0];
      assert (a + b)[1..] == a[1..] + b;
      FlattenAppend(a[1..], b);
    }
  }

  lemma {:induction false} FlattenLength(rows: seq<RowError>)
    ensures |Flatten(rows)| == TotalErrors(rows)
  {
    if rows != [] {
      FlattenLength(rows[1..]);
    }
  }

  /** Nothing is lost or invented: a detail is in the payload iff some row reports it. */
  lemma {:induction false} FlattenMembership(rows: seq<RowError>, x: string)
    ensures x in Flatten(rows) <==> exists i :: 0 <= i < |rows| && x in rows[i].errors
  {
    if rows != [] {
      FlattenMembership(rows[1..], x);
      if x in Flatten(rows[1..]) {
        var i :| 0 <= i < |rows[1..]| && x in rows[1..][i].errors;
        assert x in rows[i + 1].errors;
      }
      if exists i :: 0 <= i < |rows| && x in rows[i].errors {
        var i :| 0 <= i < |rows| && x in rows[i].errors;
        if i > 0 {
          assert x in rows[1..][i - 1].errors;
        }
      }
    }
  }

  /**
   * In order: the k-th detail of row i sits in the payload right after all details of the
   * rows before it.
   */
  lemma FlattenAt(rows: seq<RowError>, i: nat, k: nat)
    requires i < |rows| && k < |rows[i].errors|
    ensures |Flatten(rows[..i])| + k < |Flatten(rows)|
    ensures Flatten(rows)[|Flatten(rows[..i])| + k] == rows[i].errors[k]
  {
    assert rows == rows[..i] + [rows[i]] + rows[i + 1..];
    FlattenAppend(rows[..i] + [rows[i]], rows[i + 1..]);
    FlattenAppend(rows[..i], [rows[i]]);
    assert Flatten([rows[i]]) == rows[i].errors;
  }

  /** `BigQueryError._format`, before `json.dumps`: extend `err` by each row's list. */
  method Format(rows: seq<RowError>) returns (err: seq<string>)
    ensures err == Flatten(rows)
  {
    err := [];
    for i := 0 to |rows|
      invariant err == Flatten(rows[..i])
    {
      FlattenAppend(rows[..i], [rows[i]]);
      assert rows[..i + 1] == rows[..i] + [rows[i]];
      assert Flatten([rows[i]]) == rows[i].errors;
      err := err + rows[i].errors;
    }
    assert rows[..|rows|] == rows;
  }
}
