// Guard.Validate of internal/sqlguard/guard.go. Parsing and restoring belong to
// a library and are parameters.
module SqlGuard {
  import opened Options
  import opened SqlAst
  import opened SqlPolicy
  import opened SqlValidator
  import opened SqlMeaning
  import opened SqlReads
  import opened SqlLimit

  datatype ValidateInput = ValidateInput(
    sql: string, allowedDatabase: string, allowedTables: seq<string>, maxRows: int)

  datatype ValidateResult = ValidateResult(
    normalizedSql: string, statementType: string, tables: seq<string>, limit: nat)

  datatype Outcome = Validated(result: ValidateResult) | Rejected | Interrupted

  function StatementType(n: Node): string {
    if n.SetOpr? then "UNION" else "SELECT"
  }

  // ---- tableList: the distinct tables in ascending order -------------------

  function Precedes(a: string, b: string): bool {
    if b == [] then false
    else if a == [] then true
    else if a[0] != b[0] then a[0] < b[0]
    else Precedes(a[1..], b[1..])
  }

  ghost predicate Ascending(s: seq<string>) {
    forall i, k :: 0 <= i < k < |s| ==> Precedes(s[i], s[k])
  }

  ghost predicate IsListing(s: seq<string>, tables: set<string>) {
    Ascending(s) && (forall t :: t in tables <==> t in s)
  }

  // The order of names, by the first position where they differ.
  ghost predicate FirstDifference(a: string, b: string, i: nat) {
    && i <= |a| && i <= |b| && a[..i] == b[..i] && i < |b|
    && (i == |a| || a[i] < b[i])
  }

  lemma {:induction false} PrecedesIff(a: string, b: string)
    ensures Precedes(a, b) <==> exists i: nat :: FirstDifference(a, b, i)
  {
    if a != [] && b != [] && a[0] == b[0] {
      PrecedesIff(a[1..], b[1..]);
      if i: nat :| FirstDifference(a[1..], b[1..], i) {
        assert a[..i + 1] == [a[0]] + a[1..][..i] && b[..i + 1] == [b[0]] + b[1..][..i];
        assert FirstDifference(a, b, i + 1);
      }
      if i: nat :| FirstDifference(a, b, i) {
        assert i > 0;
        assert a[1..][..i - 1] == a[..i][1..] && b[1..][..i - 1] == b[..i][1..];
        assert FirstDifference(a[1..], b[1..], i - 1);
      }
    } else if Precedes(a, b) {
      assert FirstDifference(a, b, 0);
    }
  }

  lemma {:induction false} PrecedesTotal(a: string, b: string)
    ensures a == b || Precedes(a, b) || Precedes(b, a)
    ensures !(Precedes(a, b) && Precedes(b, a)) && !Precedes(a, a)
  {
    if a != [] && b != [] && a[0] == b[0] {
      PrecedesTotal(a[1..], b[1..]);
      assert a == [a[0]] + a[1..] && b == [b[0]] + b[1..];
    }
    if a != [] {
      PrecedesTotal(a[1..], a[1..]);
    }
  }

  lemma {:induction false} PrecedesTransitive(a: string, b: string, c: string)
    requires Precedes(a, b) && Precedes(b, c)
    ensures Precedes(a, c)
  {
    if a != [] && a[0] == b[0] == c[0] {
      PrecedesTransitive(a[1..], b[1..], c[1..]);
    }
  }

  // A set of names has one listing.
  lemma {:induction false} ListingUnique(s: seq<string>, u: seq<string>, tables: set<string>)
    requires IsListing(s, tables) && IsListing(u, tables)
    ensures s == u
  {
    if s != [] || u != [] {
      var x := if s != [] then s[0] else u[0];
      assert x in tables && x in s && x in u;
      assert u[0] in tables && u[0] in s && s[0] in tables && s[0] in u;
      PrecedesTotal(s[0], u[0]);
      var i, k :| 0 <= i < |u| && u[i] == s[0] && 0 <= k < |s| && s[k] == u[0];
      assert s[0] == u[0];
      RestListing(s, tables);
      RestListing(u, tables);
      ListingUnique(s[1..], u[1..], tables - {s[0]});
    }
  }

  lemma RestListing(s: seq<string>, tables: set<string>)
    requires IsListing(s, tables) && s != []
    ensures IsListing(s[1..], tables - {s[0]})
  {
    forall t ensures t in tables - {s[0]} <==> t in s[1..] {
      if t in s[1..] {
        var k :| 1 <= k < |s| && s[k] == t;
        PrecedesTotal(s[0], t);
      }
      if t in tables - {s[0]} {
        var k :| 0 <= k < |s| && s[k] == t;
        assert s[1..][k - 1] == t;
      }
    }
  }

  // sort.Strings, on distinct names.
  method SortStrings(names: seq<string>) returns (sorted: seq<string>)
    requires forall i, k :: 0 <= i < k < |names| ==> names[i] != names[k]
    ensures Ascending(sorted) && forall t :: t in sorted <==> t in names
  {
    sorted := [];
    for n := 0 to |names|
      invariant Ascending(sorted) && forall t :: t in sorted <==> t in names[..n]
    {
      var i := 0;
      while i < |sorted| && Precedes(sorted[i], names[n])
        invariant i <= |sorted| && forall k :: 0 <= k < i ==> Precedes(sorted[k], names[n])
      {
        i := i + 1;
      }
      InsertAscending(sorted, names[n], i);
      assert names[..n + 1] == names[..n] + [names[n]];
      sorted := sorted[..i] + [names[n]] + sorted[i..];
    }
    assert names[..|names|] == names;
  }

  lemma InsertAscending(s: seq<string>, x: string, i: nat)
    requires Ascending(s) && i <= |s| && x !in s
    requires forall k :: 0 <= k < i ==> Precedes(s[k], x)
    requires i < |s| ==> !Precedes(s[i], x)
    ensures Ascending(s[..i] + [x] + s[i..])
    ensures forall t :: t in s[..i] + [x] + s[i..] <==> t == x || t in s
  {
    assert s == s[..i] + s[i..];
    forall k | i <= k < |s| ensures Precedes(x, s[k]) {
      PrecedesTotal(x, s[i]);
      if i < k {
        PrecedesTransitive(x, s[i], s[k]);
      }
    }
  }

  method TableList(v: Validator) returns (out: seq<string>)
    ensures IsListing(out, v.seenTables)
  {
    out := [];
    var left := v.seenTables;
    while left != {}
      invariant left <= v.seenTables
      invariant forall t :: t in v.seenTables <==> t in left || t in out
      invariant forall t :: t in left ==> t !in out
      invariant forall i, k :: 0 <= i < k < |out| ==> out[i] != out[k]
      decreases left
    {
      var t :| t in left;
      left := left - {t};
      out := out + [t];
    }
    out := SortStrings(out);
  }

  // ---- Validate ------------------------------------------------------------

  type Parser = string -> Option<Node>      // None: not exactly one SELECT or set operation
  type Restorer = Node -> Option<string>

  datatype Accepted = Accepted(stmt: Node, rewritten: Node, sql: string, limit: nat)

  // What Validate accepts, and what it makes of it.
  ghost function Guarded(parse: Parser, restore: Restorer, input: ValidateInput): Option<Accepted> {
    var p := PolicyFor(input.allowedDatabase, input.allowedTables);
    if input.maxRows <= 0 || parse(input.sql) == None then None
    else
      var stmt := parse(input.sql).value;
      if !Permitted(p, stmt) || Rewritten(stmt, input.maxRows) == None then None
      else
        var (stmt', limit) := Rewritten(stmt, input.maxRows).value;
        if restore(stmt') == None || parse(restore(stmt').value) == None then None
        else
          var stmt2 := parse(restore(stmt').value).value;
          if !Permitted(p, stmt2) || !LimitInRange(stmt2, input.maxRows) then None
          else Some(Accepted(stmt, stmt', restore(stmt').value, limit))
  }

  method Validate(parse: Parser, restore: Restorer, cancelled: bool, input: ValidateInput) returns (r: Outcome)
    ensures r == Interrupted <==> cancelled
    ensures !cancelled ==> (r.Validated? <==> Guarded(parse, restore, input).Some?)
    ensures r.Validated? ==>
              var a := Guarded(parse, restore, input).value;
              && r.result.normalizedSql == a.sql && r.result.limit == a.limit
              && (a.stmt.Select? ==> r.result.statementType == "SELECT")
              && (a.stmt.SetOpr? ==> r.result.statementType == "UNION")
              && IsListing(r.result.tables, Listed(a.stmt))
  {
    if cancelled {
      return Interrupted;
    }
    if input.maxRows <= 0 {
      return Rejected;
    }
    var parsed := parse(input.sql);
    if parsed == None {
      return Rejected;
    }
    var v := new Validator(input.allowedDatabase, input.allowedTables);
    var err := v.Check(parsed.value);
    if err != None {
      return Rejected;
    }
    var stmt := new Statement(parsed.value);
    var limit := stmt.RewriteLimit(input.maxRows);
    if limit == None {
      return Rejected;
    }
    var normalized := restore(stmt.root);
    if normalized == None {
      return Rejected;
    }
    var parsed2 := parse(normalized.value);
    if parsed2 == None {
      return Rejected;
    }
    var v2 := new Validator(input.allowedDatabase, input.allowedTables);
    err := v2.Check(parsed2.value);
    if err != None {
      return Rejected;
    }
    var stmt2 := new Statement(parsed2.value);
    var ok := stmt2.VerifyOutermostLimit(input.maxRows);
    if !ok {
      return Rejected;
    }
    var tables := TableList(v);
    return Validated(ValidateResult(normalized.value, StatementType(stmt.root), tables, limit.value));
  }

  // ---- what the pipeline guarantees ----------------------------------------

  // Restoring and parsing again is the identity on what the parser produces, with the
  // outermost LIMIT as it was or rewritten.
  ghost predicate Inverse(parse: Parser, restore: Restorer) {
    forall sql, k: nat :: parse(sql).Some? && Rewritten(parse(sql).value, k).Some? ==>
      var n := Rewritten(parse(sql).value, k).value.0;
      restore(n).Some? && parse(restore(n).value) == Some(n)
  }

  // Everything the second half of the pipeline checks already holds, but for LIMIT 0.
  lemma RecheckRejectsOnlyLimitZero(parse: Parser, restore: Restorer, input: ValidateInput)
    requires Inverse(parse, restore) && input.maxRows > 0 && parse(input.sql).Some?
    ensures var p, n := PolicyFor(input.allowedDatabase, input.allowedTables), parse(input.sql).value;
            Guarded(parse, restore, input).Some? <==>
              Permitted(p, n) && (n.Select? || n.SetOpr?) && PlainLimit(n, input.maxRows)
              && !(n.limit.Some? && n.limit.value.count.Some? && Spells(n.limit.value.count.value, 0))
  {
    var n := parse(input.sql).value;
    RewrittenIff(n, input.maxRows);
    if Rewritten(n, input.maxRows).Some? {
      RewriteIsStable(n, input.maxRows);
      RewriteKeepsOccurrences(n, input.maxRows);
    }
    hide Occurrences, Rewritten, LimitInRange;
  }

  // Validating the normalized statement gives it back, with the same limit, type and tables.
  lemma ValidateIdempotent(parse: Parser, restore: Restorer, input: ValidateInput)
    requires Inverse(parse, restore) && Guarded(parse, restore, input).Some?
    ensures var a := Guarded(parse, restore, input).value;
            && Guarded(parse, restore, input.(sql := a.sql)) == Some(Accepted(a.rewritten, a.rewritten, a.sql, a.limit))
            && Listed(a.rewritten) == Listed(a.stmt) && StatementType(a.rewritten) == StatementType(a.stmt)
    ensures var a := Guarded(parse, restore, input).value;
            forall s, u :: IsListing(s, Listed(a.stmt)) && IsListing(u, Listed(a.rewritten)) ==> s == u
  {
    var a := Guarded(parse, restore, input).value;
    var n := parse(input.sql).value;
    RewriteIsStable(n, input.maxRows);
    RewriteKeepsOccurrences(n, input.maxRows);
    RewriteKeepsType(n, input.maxRows);
    hide Occurrences, Rewritten, LimitInRange;
    forall s, u | IsListing(s, Listed(a.stmt)) && IsListing(u, Listed(a.rewritten)) ensures s == u {
      ListingUnique(s, u, Listed(a.stmt));
    }
  }

  lemma RewriteKeepsType(n: Node, maxRows: nat)
    requires Rewritten(n, maxRows).Some?
    ensures StatementType(Rewritten(n, maxRows).value.0) == StatementType(n)
  {
  }

  // The normalized statement returns the first maxRows rows of the original, at most
  // `limit` of them, and these depend on the listed tables alone.
  lemma NormalizedMeaning(parse: Parser, restore: Restorer, input: ValidateInput, m: Meaning, db: Database, db': Database)
    requires Inverse(parse, restore) && Guarded(parse, restore, input).Some?
    requires input.allowedDatabase == "" || m.home == Lower(input.allowedDatabase)
    requires NamesEarlierOnly(Guarded(parse, restore, input).value.stmt)
    requires HiddenIsListed(m.home, Guarded(parse, restore, input).value.stmt)
    requires var a := Guarded(parse, restore, input).value;
             forall t :: t in Listed(a.stmt) ==> Lookup(db, TableId(m.home, t)) == Lookup(db', TableId(m.home, t))
    ensures var a := Guarded(parse, restore, input).value;
            && parse(a.sql) == Some(a.rewritten)
            && Eval(m, db, a.rewritten, map[], []) == Take(Eval(m, db, a.stmt, map[], []), input.maxRows)
            && Eval(m, db, a.rewritten, map[], []) == Eval(m, db', a.rewritten, map[], [])
            && |Eval(m, db, a.rewritten, map[], [])| <= a.limit && 1 <= a.limit <= input.maxRows
  {
    var p, n := PolicyFor(input.allowedDatabase, input.allowedTables), parse(input.sql).value;
    RewriteIsStable(n, input.maxRows);
    hide Occurrences, Rewritten, LimitInRange, Eval, NamesEarlierOnly, HiddenIsListed;
    RewriteKeepsPrefix(m, db, n, input.maxRows, map[], []);
    RewriteKeepsPrefix(m, db', n, input.maxRows, map[], []);
    NonInterference(p, m, db, db', n);
  }
}
