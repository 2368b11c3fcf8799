// internal/sqlguard/rewrite.go: the outermost LIMIT is read, checked and capped
// in place.
module SqlLimit {
  import opened Options
  import opened SqlAst
  import opened SqlPolicy
  import opened SqlMeaning

  // literalUint
  function LiteralUint(o: Operand): Option<nat> {
    match o
    case UintLit(u) => Some(u)
    case IntLit(i) => if i < 0 then None else Some(i)
    case OtherOperand => None
  }

  predicate HasLimit(n: Node) {
    n.Select? || n.SetOpr?
  }

  function WithLimit(n: Node, l: Option<Limit>): (r: Node)
    requires HasLimit(n)
    ensures HasLimit(r) && r.limit == l
  {
    match n
    case Select(into, lock, with, from, clauses, unvisited, shape, _) =>
      Select(into, lock, with, from, clauses, unvisited, shape, l)
    case SetOpr(with, list, unvisited, _) => SetOpr(with, list, unvisited, l)
  }

  // The offset and count operands are absent or literals, the offset at most maxRows.
  predicate Readable(l: Limit, maxRows: nat) {
    && (l.offset.Some? ==> LiteralUint(l.offset.value).Some? && LiteralUint(l.offset.value).value <= maxRows)
    && l.count.Some? && LiteralUint(l.count.value).Some?
  }

  // The statement after the rewrite, and the limit that applies to it.
  function Rewritten(n: Node, maxRows: nat): Option<(Node, nat)> {
    if !HasLimit(n) then None
    else if n.limit == None then Some((WithLimit(n, Some(Limit(None, Some(UintLit(maxRows))))), maxRows))
    else if !Readable(n.limit.value, maxRows) then None
    else
      var count := LiteralUint(n.limit.value.count.value).value;
      if count > maxRows
      then Some((WithLimit(n, Some(n.limit.value.(count := Some(UintLit(maxRows))))), maxRows))
      else Some((n, count))
  }

  // verifyOutermostLimit
  predicate LimitInRange(n: Node, maxRows: nat) {
    && HasLimit(n) && n.limit.Some? && n.limit.value.count.Some?
    && LiteralUint(n.limit.value.count.value).Some?
    && 0 < LiteralUint(n.limit.value.count.value).value <= maxRows
  }

  // ---- which statements are rejected, by their syntax alone -----------------

  // The operand is this number, written as either kind of integer literal.
  predicate Spells(o: Operand, v: nat) {
    o == UintLit(v) || o == IntLit(v)
  }

  // No outermost LIMIT, or one whose count is a non-negative integer literal and whose
  // offset, if any, is one of at most maxRows.
  ghost predicate PlainLimit(n: Node, maxRows: nat)
    requires n.Select? || n.SetOpr?
  {
    n.limit.Some? ==>
      && n.limit.value.count.Some? && (exists v: nat :: Spells(n.limit.value.count.value, v))
      && (n.limit.value.offset.Some? ==> exists v: nat :: v <= maxRows && Spells(n.limit.value.offset.value, v))
  }

  lemma LiteralIff(o: Operand)
    ensures LiteralUint(o).Some? <==> exists v: nat :: Spells(o, v)
    ensures forall v: nat :: Spells(o, v) ==> LiteralUint(o) == Some(v)
  {
    if LiteralUint(o).Some? {
      assert Spells(o, LiteralUint(o).value);
    }
  }

  // A statement is rejected exactly if it is no query, or its LIMIT is not plain; otherwise
  // the limit that applies is its count or maxRows, whichever is less.
  lemma RewrittenIff(n: Node, maxRows: nat)
    ensures Rewritten(n, maxRows).Some? <==> (n.Select? || n.SetOpr?) && PlainLimit(n, maxRows)
    ensures HasLimit(n) && n.limit == None ==> Rewritten(n, maxRows).Some? && Rewritten(n, maxRows).value.1 == maxRows
    ensures forall v: nat ::
              Rewritten(n, maxRows).Some? && n.limit.Some? && n.limit.value.count.Some? && Spells(n.limit.value.count.value, v)
              ==> Rewritten(n, maxRows).value.1 == if v <= maxRows then v else maxRows
  {
    if HasLimit(n) && n.limit.Some? {
      if n.limit.value.count.Some? {
        LiteralIff(n.limit.value.count.value);
      }
      if n.limit.value.offset.Some? {
        LiteralIff(n.limit.value.offset.value);
        assert forall v: nat :: Spells(n.limit.value.offset.value, v) ==> LiteralUint(n.limit.value.offset.value) == Some(v);
      }
    }
  }

  // A parsed statement, updated in place.
  class Statement {
    var root: Node

    constructor (root: Node)
      ensures this.root == root
    {
      this.root := root;
    }

    // None: rejected, and then nothing was changed.
    method RewriteLimit(maxRows: nat) returns (applied: Option<nat>)
      modifies this
      ensures match Rewritten(old(root), maxRows)
              case None => applied == None && root == old(root)
              case Some((n, k)) => applied == Some(k) && root == n
      ensures applied == None <==> !(old(root).Select? || old(root).SetOpr?) || !PlainLimit(old(root), maxRows)
      ensures HasLimit(old(root)) && old(root).limit == None ==> applied == Some(maxRows)
      ensures HasLimit(old(root)) && old(root).limit.Some? && old(root).limit.value.count.Some? && applied.Some? ==>
                forall v: nat :: Spells(old(root).limit.value.count.value, v) ==>
                  applied == Some(if v <= maxRows then v else maxRows)
    {
      RewrittenIff(root, maxRows);
      if !HasLimit(root) {
        return None;
      }
      if root.limit == None {
        root := WithLimit(root, Some(Limit(None, Some(UintLit(maxRows)))));
        return Some(maxRows);
      }
      var limit := root.limit.value;
      if limit.offset.Some? {
        var offset := LiteralUint(limit.offset.value);
        if offset == None || offset.value > maxRows {
          return None;
        }
      }
      if limit.count == None {
        return None;
      }
      var count := LiteralUint(limit.count.value);
      if count == None {
        return None;
      }
      if count.value > maxRows {
        root := WithLimit(root, Some(limit.(count := Some(UintLit(maxRows)))));
        return Some(maxRows);
      }
      return count;
    }

    method VerifyOutermostLimit(maxRows: nat) returns (ok: bool)
      ensures ok == LimitInRange(root, maxRows)
    {
      if !HasLimit(root) || root.limit == None || root.limit.value.count == None {
        return false;
      }
      var count := LiteralUint(root.limit.value.count.value);
      if count == None {
        return false;
      }
      return !(count.value == 0 || count.value > maxRows);
    }
  }

  // ---- meaning -------------------------------------------------------------

  function Uncut(n: Node): Node
    requires HasLimit(n)
  {
    WithLimit(n, None)
  }

  lemma UncutParts(m: Meaning, db: Database, n: Node, env: map<string, Relation>, ctx: seq<Row>)
    requires HasLimit(n)
    ensures n.Select? ==> Clauses(m, db, n, env, ctx) == Clauses(m, db, Uncut(n), env, ctx)
    ensures Unvisited(m, db, n, env, ctx) == Unvisited(m, db, Uncut(n), env, ctx)
  {
  }

  // The outermost LIMIT cuts what the statement gives without it.
  lemma EvalCuts(m: Meaning, db: Database, n: Node, env: map<string, Relation>, ctx: seq<Row>)
    requires HasLimit(n)
    ensures Eval(m, db, n, env, ctx) == Cut(Eval(m, db, Uncut(n), env, ctx), n.limit)
  {
    if n.Select? {
      SelectCuts(m, db, n, env, ctx);
    } else {
      SetOprCuts(m, db, n, env, ctx);
    }
  }

  lemma SelectCuts(m: Meaning, db: Database, n: Node, env: map<string, Relation>, ctx: seq<Row>)
    requires n.Select?
    ensures Eval(m, db, n, env, ctx) == Cut(Eval(m, db, Uncut(n), env, ctx), n.limit)
  {
    hide Cut, Clauses, Unvisited;
    var n0 := Uncut(n);
    var inner := EvalWith(m, db, n.with, env, ctx);
    var rows := if n.from == None then [[]] else Eval(m, db, n.from.value, inner, ctx);
    forall i | 0 <= i < |rows|
      ensures Clauses(m, db, n, inner, [rows[i]] + ctx) == Clauses(m, db, n0, inner, [rows[i]] + ctx)
      ensures Unvisited(m, db, n, inner, [rows[i]] + ctx) == Unvisited(m, db, n0, inner, [rows[i]] + ctx)
    {
      UncutParts(m, db, n, inner, [rows[i]] + ctx);
    }
    var pairs := seq(|rows|, i requires 0 <= i < |rows| =>
      (rows[i], Clauses(m, db, n0, inner, [rows[i]] + ctx) + Unvisited(m, db, n0, inner, [rows[i]] + ctx)));
    assert pairs == seq(|rows|, i requires 0 <= i < |rows| =>
      (rows[i], Clauses(m, db, n, inner, [rows[i]] + ctx) + Unvisited(m, db, n, inner, [rows[i]] + ctx)));
    NoCut(m.select(n.shape, pairs));
  }

  lemma SetOprCuts(m: Meaning, db: Database, n: Node, env: map<string, Relation>, ctx: seq<Row>)
    requires n.SetOpr?
    ensures Eval(m, db, n, env, ctx) == Cut(Eval(m, db, Uncut(n), env, ctx), n.limit)
  {
    hide Cut, Ordered;
    var inner := EvalWith(m, db, n.with, env, ctx);
    var rows := if n.list == None then [] else Eval(m, db, n.list.value, inner, ctx);
    UncutOrdered(m, db, n, rows, inner, ctx);
    NoCut(Ordered(m, db, n, rows, inner, ctx));
  }

  lemma UncutOrdered(m: Meaning, db: Database, n: Node, rows: Relation, env: map<string, Relation>, ctx: seq<Row>)
    requires n.SetOpr?
    ensures Ordered(m, db, n, rows, env, ctx) == Ordered(m, db, Uncut(n), rows, env, ctx)
  {
    hide Unvisited;
    forall i | 0 <= i < |rows|
      ensures Unvisited(m, db, n, env, [rows[i]] + ctx) == Unvisited(m, db, Uncut(n), env, [rows[i]] + ctx)
    {
      UncutParts(m, db, n, env, [rows[i]] + ctx);
    }
    assert seq(|rows|, i requires 0 <= i < |rows| => (rows[i], Unvisited(m, db, n, env, [rows[i]] + ctx)))
        == seq(|rows|, i requires 0 <= i < |rows| => (rows[i], Unvisited(m, db, Uncut(n), env, [rows[i]] + ctx)));
  }

  lemma NoCut(r: Relation)
    ensures Cut(r, None) == r
  {
  }

  // Cutting with the rewritten limit is cutting with the original one and then keeping
  // the first maxRows rows.
  lemma CappedCut(r: Relation, n: Node, maxRows: nat)
    requires Rewritten(n, maxRows).Some?
    ensures var (n', k) := Rewritten(n, maxRows).value;
            HasLimit(n) && HasLimit(n') && Cut(r, n'.limit) == Take(Cut(r, n.limit), maxRows) && |Cut(r, n'.limit)| <= k <= maxRows
  {
  }

  // The rewritten statement returns exactly the first maxRows rows of the original, never
  // more than the limit reported.
  lemma RewriteKeepsPrefix(m: Meaning, db: Database, n: Node, maxRows: nat, env: map<string, Relation>, ctx: seq<Row>)
    requires Rewritten(n, maxRows).Some?
    ensures var (n', k) := Rewritten(n, maxRows).value;
            && Eval(m, db, n', env, ctx) == Take(Eval(m, db, n, env, ctx), maxRows)
            && |Eval(m, db, n', env, ctx)| <= k <= maxRows
  {
    var (n', k) := Rewritten(n, maxRows).value;
    assert HasLimit(n) && HasLimit(n') && Uncut(n') == Uncut(n);
    hide Rewritten, Cut, Eval;
    EvalCuts(m, db, n, env, ctx);
    EvalCuts(m, db, n', env, ctx);
    CappedCut(Eval(m, db, Uncut(n), env, ctx), n, maxRows);
  }

  // ---- checking the rewritten statement again ------------------------------

  // The guard looks at nothing the rewrite touches.
  lemma RewriteKeepsOccurrences(n: Node, maxRows: nat)
    requires Rewritten(n, maxRows).Some?
    ensures Occurrences(Rewritten(n, maxRows).value.0, Root, {}) == Occurrences(n, Root, {})
  {
  }

  // Verifying the rewritten statement rejects exactly LIMIT 0, and rewriting again
  // changes nothing.
  lemma RewriteIsStable(n: Node, maxRows: nat)
    requires maxRows > 0 && Rewritten(n, maxRows).Some?
    ensures var (n', k) := Rewritten(n, maxRows).value;
            && (LimitInRange(n', maxRows) <==> k > 0)
            && (k == 0 <==> HasLimit(n) && n.limit.Some? && n.limit.value.count.Some? && Spells(n.limit.value.count.value, 0))
            && Rewritten(n', maxRows) == Some((n', k))
  {
  }
}
