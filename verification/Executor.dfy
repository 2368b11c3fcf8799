// The row-capped loop of internal/queryexec/executor.go.
module Executor {
  import opened Options
  import opened SqlAst
  import opened SqlMeaning
  import opened SqlLimit

  // What one step of the cursor yields.
  datatype Fetch = Fetched(row: Row) | ScanFailed

  function Rows(cursor: seq<Fetch>): Relation
    requires forall i :: 0 <= i < |cursor| ==> cursor[i].Fetched?
  {
    seq(|cursor|, i requires 0 <= i < |cursor| => cursor[i].row)
  }

  function Shorter(a: nat, b: nat): nat {
    if a <= b then a else b
  }

  // None: an error. At most maxRows rows are scanned; a later scan error is never met.
  method Execute(cursor: seq<Fetch>, maxRows: nat, queryFails: bool, endsInError: bool) returns (result: Option<Relation>)
    ensures result.Some? <==> !queryFails && !endsInError && ScanFailed !in cursor[..Shorter(|cursor|, maxRows)]
    ensures result.Some? ==> (forall i :: 0 <= i < Shorter(|cursor|, maxRows) ==> cursor[i].Fetched?)
                             && result.value == Rows(cursor[..Shorter(|cursor|, maxRows)])
  {
    if queryFails {
      return None;
    }
    var rows: Relation := [];
    for i := 0 to |cursor|
      invariant |rows| == i <= maxRows
      invariant forall k :: 0 <= k < i ==> cursor[k] == Fetched(rows[k])
    {
      if |rows| >= maxRows {
        break;
      }
      if cursor[i].ScanFailed? {
        assert cursor[i] in cursor[..Shorter(|cursor|, maxRows)];
        return None;
      }
      rows := rows + [cursor[i].row];
    }
    if endsInError {
      return None;
    }
    result := Some(rows);
  }

  function Delivered(r: Relation): seq<Fetch> {
    seq(|r|, i requires 0 <= i < |r| => Fetched(r[i]))
  }

  // On a rewritten statement the executor's own cap at the same maxRows drops no row.
  lemma CapDropsNothing(m: Meaning, db: Database, n: Node, maxRows: nat, env: map<string, Relation>)
    requires Rewritten(n, maxRows).Some?
    ensures var r := Eval(m, db, Rewritten(n, maxRows).value.0, env, []);
            Shorter(|Delivered(r)|, maxRows) == |r| && Rows(Delivered(r)[..Shorter(|Delivered(r)|, maxRows)]) == r
  {
    hide Rewritten, Eval;
    RewriteKeepsPrefix(m, db, n, maxRows, env, []);
  }
}
