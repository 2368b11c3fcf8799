// internal/sqlguard/validator.go and visitor.go: the traversal with copied
// scopes, a table set that fills as it goes, and a visitor that stops at its
// first error. It accepts exactly what SqlPolicy permits.
module SqlValidator {
  import opened Options
  import opened SqlAst
  import opened SqlPolicy
  import SqlContents
  import SqlMeaning

  datatype Reason =
    | OnlySelect | UnsupportedConstruct | IntoNotAllowed | LockNotAllowed | RecursiveNotAllowed
    | ShadowsTable | InvalidCte | EmptySetOpr | TableNotAllowed | DatabaseNotAllowed
    | VariablesNotAllowed | MarkersNotAllowed | FunctionNotAllowed | WindowNotAllowed

  type Rejection = Option<Reason>

  // The verdict on some occurrences, given the table set before and after.
  ghost predicate Judged(p: Policy, occurrences: set<Occurrence>, before: set<string>, after: set<string>, err: Rejection) {
    && (err == None <==> AllAdmissible(p, occurrences))
    && (err == None ==> after == before + Tables(occurrences))
  }

  lemma JudgedBoth(p: Policy, a: set<Occurrence>, b: set<Occurrence>, s: set<string>, t: set<string>,
                   u: set<string>, err: Rejection)
    requires Judged(p, a, s, t, None) && Judged(p, b, t, u, err)
    ensures Judged(p, a + b, s, u, err)
  {
    assert Tables(a + b) == Tables(a) + Tables(b);
  }

  lemma Fails(p: Policy, part: set<Occurrence>, whole: set<Occurrence>, s: set<string>, t: set<string>,
                   u: set<string>, err: Rejection)
    requires Judged(p, part, s, t, err) && err != None && part <= whole
    ensures Judged(p, whole, u, t, err)
  {
  }

  function ExprsUpTo(es: seq<Expr>, k: nat, scope: set<string>): set<Occurrence>
    requires k <= |es|
  {
    set i, o | 0 <= i < k && o in InExpr(es[i], scope) :: o
  }

  function BranchesUpTo(ns: seq<Node>, k: nat, scope: set<string>): set<Occurrence>
    requires k <= |ns|
  {
    set i, o | 0 <= i < k && o in Occurrences(ns[i], Branch, scope) :: o
  }

  lemma SelectSplits(n: Node, scope: set<string>)
    requires n.Select? && !n.into && !n.lock
    ensures var inner := ScopeBelow(n.with, scope);
            Inside(n, scope) == InWith(n.with, scope)
                                + (if n.from == None then {} else Occurrences(n.from.value, FromItem, inner))
                                + ExprsUpTo(n.clauses, |n.clauses|, inner)
  {
    var inner := ScopeBelow(n.with, scope);
    forall o | o in ExprsUpTo(n.clauses, |n.clauses|, inner) ensures o in Inside(n, scope) {
      var i :| 0 <= i < |n.clauses| && o in InExpr(n.clauses[i], inner);
    }
  }

  lemma ListSplits(n: Node, scope: set<string>)
    requires n.SelectList?
    ensures var inner := ScopeBelow(n.with, scope);
            Inside(n, scope) == InWith(n.with, scope) + BranchesUpTo(n.branches, |n.branches|, inner)
  {
    var inner := ScopeBelow(n.with, scope);
    forall o | o in BranchesUpTo(n.branches, |n.branches|, inner) ensures o in Inside(n, scope) {
      var i :| 0 <= i < |n.branches| && o in Occurrences(n.branches[i], Branch, inner);
    }
  }

  lemma OneMoreExpr(es: seq<Expr>, k: nat, scope: set<string>)
    requires k < |es|
    ensures ExprsUpTo(es, k + 1, scope) == ExprsUpTo(es, k, scope) + InExpr(es[k], scope)
    ensures ExprsUpTo(es, k + 1, scope) <= ExprsUpTo(es, |es|, scope)
  {
  }

  lemma OneMoreBranch(ns: seq<Node>, k: nat, scope: set<string>)
    requires k < |ns|
    ensures BranchesUpTo(ns, k + 1, scope) == BranchesUpTo(ns, k, scope) + Occurrences(ns[k], Branch, scope)
    ensures BranchesUpTo(ns, k + 1, scope) <= BranchesUpTo(ns, |ns|, scope)
  {
  }

  // What the definitions of a WITH clause say, and what its first k bodies say.
  function Definitions(w: With, k: nat): set<Occurrence>
    requires k <= |w.ctes|
  {
    (if w.recursive then {Banned(RecursiveWith)} else {})
    + (set i | 0 <= i < k :: CteDefinition(w.ctes[i].name))
    + (set i | 0 <= i < k && w.ctes[i].recursive :: Banned(RecursiveWith))
  }

  function Body(w: With, i: nat, inner: set<string>): set<Occurrence>
    requires i < |w.ctes|
  {
    if w.ctes[i].query == None then {Banned(EmptyCte)} else Occurrences(w.ctes[i].query.value, ResultSet, inner)
  }

  function BodiesUpTo(w: With, k: nat, inner: set<string>): set<Occurrence>
    requires k <= |w.ctes|
  {
    set i, o | 0 <= i < k && o in Body(w, i, inner) :: o
  }

  lemma WithSplits(w: With, scope: set<string>)
    ensures InCtes(w, scope) == Definitions(w, |w.ctes|) + BodiesUpTo(w, |w.ctes|, scope + CteNames(w))
  {
    var inner := scope + CteNames(w);
    forall o ensures o in InCtes(w, scope) <==> o in Definitions(w, |w.ctes|) + BodiesUpTo(w, |w.ctes|, inner) {
      if o in BodiesUpTo(w, |w.ctes|, inner) {
        var i :| 0 <= i < |w.ctes| && o in Body(w, i, inner);
        assert o in InCtes(w, scope);
      }
      if k :| 0 <= k < |w.ctes| && w.ctes[k].query == None && o == Banned(EmptyCte) {
        assert o in Body(w, k, inner);
      }
      if k :| 0 <= k < |w.ctes| && w.ctes[k].query.Some? && o in Occurrences(w.ctes[k].query.value, ResultSet, inner) {
        assert o in Body(w, k, inner);
      }
    }
  }

  lemma OneMoreBody(w: With, k: nat, inner: set<string>)
    requires k < |w.ctes|
    ensures BodiesUpTo(w, k + 1, inner) == BodiesUpTo(w, k, inner) + Body(w, k, inner)
    ensures BodiesUpTo(w, k + 1, inner) <= BodiesUpTo(w, |w.ctes|, inner)
  {
  }

  lemma OneMoreDefinition(w: With, k: nat)
    requires k < |w.ctes|
    ensures Definitions(w, k + 1) == Definitions(w, k) + {CteDefinition(w.ctes[k].name)}
                                     + (if w.ctes[k].recursive then {Banned(RecursiveWith)} else {})
    ensures Definitions(w, k + 1) <= Definitions(w, |w.ctes|)
  {
  }

  function PolicyFor(allowedDatabase: string, allowedTables: seq<string>): Policy {
    Policy(set i | 0 <= i < |allowedTables| :: Lower(allowedTables[i]),
           if allowedDatabase == "" then {} else {Lower(allowedDatabase)})
  }

  // All the expression contains is decent, all tables it refers to are allowed.
  ghost predicate ExprPermitted(p: Policy, e: Expr, scope: set<string>) {
    && SqlContents.AllDecent(p, SqlContents.ExprPart(e))
    && SqlContents.RefsAllowed(p, SqlMeaning.RefsExpr(e, {}, scope))
  }

  class Validator {
    const allowedTables: set<string>
    const allowedSchemas: set<string>
    var seenTables: set<string>

    ghost function P(): Policy {
      Policy(allowedTables, allowedSchemas)
    }

    constructor (allowedDatabase: string, allowed: seq<string>)
      ensures P() == PolicyFor(allowedDatabase, allowed) && seenTables == {}
    {
      var tables: set<string> := {};
      for i := 0 to |allowed|
        invariant tables == set k | 0 <= k < i :: Lower(allowed[k])
      {
        tables := tables + {Lower(allowed[i])};
      }
      allowedTables, seenTables := tables, {};
      allowedSchemas := if allowedDatabase == "" then {} else {Lower(allowedDatabase)};
    }

    // check: the root must be a SELECT or a set operation. It is accepted exactly if all it
    // contains is decent and all tables it refers to are allowed, and then these are listed.
    method Check(stmt: Node) returns (err: Rejection)
      modifies this
      ensures Judged(P(), Occurrences(stmt, Root, {}), old(seenTables), seenTables, err)
      ensures err == None <==>
                && SqlContents.IsQuery(stmt) && SqlContents.AllDecent(P(), SqlContents.NodePart(stmt))
                && SqlContents.RefsAllowed(P(), SqlMeaning.Refs(stmt, {}, {}))
      ensures err == None ==> seenTables == old(seenTables) + SqlContents.TablesReferred(stmt)
    {
      err := CheckRoot(stmt);
      SqlContents.PermittedIff(P(), stmt);
      if err == None {
        SqlContents.ListedExactly(P(), stmt);
      }
    }

    method CheckRoot(stmt: Node) returns (err: Rejection)
      modifies this
      ensures Judged(P(), Occurrences(stmt, Root, {}), old(seenTables), seenTables, err)
    {
      match stmt {
        case Select(_, _, _, _, _, _, _, _) => err := CheckSelect(stmt, {});
        case SetOpr(_, _, _, _) => err := CheckSetOpr(stmt, {});
        case _ => err := Some(OnlySelect); assert Banned(Unsupported) in Occurrences(stmt, Root, {});
      }
    }

    method CheckResultSet(n: Node, scope: set<string>) returns (err: Rejection)
      modifies this
      ensures Judged(P(), Occurrences(n, ResultSet, scope), old(seenTables), seenTables, err)
      decreases n, 3
    {
      match n {
        case Select(_, _, _, _, _, _, _, _) => err := CheckSelect(n, scope);
        case SetOpr(_, _, _, _) => err := CheckSetOpr(n, scope);
        case Join(_, _, _, _) => err := CheckJoinNode(n, scope);
        case TableSource(_) => err := CheckTableSource(n, scope);
        case _ => err := Some(UnsupportedConstruct); assert Banned(Unsupported) in Occurrences(n, ResultSet, scope);
      }
    }

    method CheckSelect(n: Node, parentScope: set<string>) returns (err: Rejection)
      requires n.Select?
      modifies this
      ensures Judged(P(), Inside(n, parentScope), old(seenTables), seenTables, err)
      decreases n, 1
    {
      ghost var whole := Inside(n, parentScope);
      if n.into {
        assert Banned(IntoClause) in whole;
        return Some(IntoNotAllowed);
      }
      if n.lock {
        assert Banned(RowLock) in whole;
        return Some(LockNotAllowed);
      }
      ghost var seen0 := seenTables;
      var scope := ScopeBelow(n.with, parentScope);
      ghost var done := InWith(n.with, parentScope);
      if n.with.Some? {
        err, scope := CheckWith(n.with.value, parentScope);
        if err != None {
          Fails(P(), done, whole, seen0, seenTables, seen0, err);
          return;
        }
      } else {
        err := None;
      }
      ghost var seen1 := seenTables;
      if n.from.Some? {
        err := CheckJoinNode(n.from.value, scope);
        if err != None {
          Fails(P(), Occurrences(n.from.value, FromItem, scope), whole, seen1, seenTables, seen0, err);
          return;
        }
        JudgedBoth(P(), done, Occurrences(n.from.value, FromItem, scope), seen0, seen1, seenTables, None);
        done := done + Occurrences(n.from.value, FromItem, scope);
      }
      ghost var seen2 := seenTables;
      err := CheckClauses(n, n.clauses, scope);
      ghost var last := ExprsUpTo(n.clauses, |n.clauses|, scope);
      SelectSplits(n, parentScope);
      assert whole == done + last;
      JudgedBoth(P(), done, last, seen0, seen2, seenTables, err);
    }

    // The loop over selectExprNodes.
    method CheckClauses(ghost n: Node, clauses: seq<Expr>, scope: set<string>) returns (err: Rejection)
      requires n.Select? && clauses == n.clauses
      modifies this
      ensures Judged(P(), ExprsUpTo(clauses, |clauses|, scope), old(seenTables), seenTables, err)
      decreases n, 0
    {
      err := None;
      for k := 0 to |clauses|
        invariant err == None && Judged(P(), ExprsUpTo(clauses, k, scope), old(seenTables), seenTables, None)
      {
        ghost var seen := seenTables;
        err := CheckExpr(clauses[k], scope);
        JudgedBoth(P(), ExprsUpTo(clauses, k, scope), InExpr(clauses[k], scope), old(seenTables), seen, seenTables, err);
        OneMoreExpr(clauses, k, scope);
        if err != None {
          Fails(P(), ExprsUpTo(clauses, k + 1, scope), ExprsUpTo(clauses, |clauses|, scope), old(seenTables), seenTables,
                old(seenTables), err);
          return;
        }
      }
    }

    method CheckSetOpr(n: Node, parentScope: set<string>) returns (err: Rejection)
      requires n.SetOpr?
      modifies this
      ensures Judged(P(), Inside(n, parentScope), old(seenTables), seenTables, err)
      decreases n, 1
    {
      ghost var seen0, whole := seenTables, Inside(n, parentScope);
      var scope := ScopeBelow(n.with, parentScope);
      ghost var done := InWith(n.with, parentScope);
      err := None;
      if n.with.Some? {
        err, scope := CheckWith(n.with.value, parentScope);
        if err != None {
          Fails(P(), done, whole, seen0, seenTables, seen0, err);
          return;
        }
      }
      if n.list == None {
        assert Banned(EmptySetOperation) in whole;
        return Some(EmptySetOpr);
      }
      if !n.list.value.SelectList? {
        assert Banned(Unsupported) in whole;
        return Some(UnsupportedConstruct);
      }
      ghost var seen1 := seenTables;
      err := CheckSelectList(n.list.value, scope);
      JudgedBoth(P(), done, Inside(n.list.value, scope), seen0, seen1, seenTables, err);
    }

    method CheckSelectList(n: Node, parentScope: set<string>) returns (err: Rejection)
      requires n.SelectList?
      modifies this
      ensures Judged(P(), Inside(n, parentScope), old(seenTables), seenTables, err)
      decreases n, 1
    {
      ghost var seen0, whole := seenTables, Inside(n, parentScope);
      var scope := ScopeBelow(n.with, parentScope);
      ghost var done := InWith(n.with, parentScope);
      err := None;
      if n.with.Some? {
        err, scope := CheckWith(n.with.value, parentScope);
        if err != None {
          Fails(P(), done, whole, seen0, seenTables, seen0, err);
          return;
        }
      }
      ghost var seen1 := seenTables;
      err := CheckBranches(n, n.branches, scope);
      ghost var last := BranchesUpTo(n.branches, |n.branches|, scope);
      ListSplits(n, parentScope);
      assert whole == done + last;
      JudgedBoth(P(), done, last, seen0, seen1, seenTables, err);
    }

    method CheckBranches(ghost n: Node, branches: seq<Node>, scope: set<string>) returns (err: Rejection)
      requires n.SelectList? && branches == n.branches
      modifies this
      ensures Judged(P(), BranchesUpTo(branches, |branches|, scope), old(seenTables), seenTables, err)
      decreases n, 0
    {
      err := None;
      for k := 0 to |branches|
        invariant err == None && Judged(P(), BranchesUpTo(branches, k, scope), old(seenTables), seenTables, None)
      {
        ghost var seen := seenTables;
        match branches[k] {
          case Select(_, _, _, _, _, _, _, _) => err := CheckSelect(branches[k], scope);
          case SelectList(_, _, _, _) => err := CheckSelectList(branches[k], scope);
          case _ =>
            err := Some(UnsupportedConstruct);
            assert Banned(Unsupported) in Occurrences(branches[k], Branch, scope);
        }
        JudgedBoth(P(), BranchesUpTo(branches, k, scope), Occurrences(branches[k], Branch, scope), old(seenTables), seen,
                   seenTables, err);
        OneMoreBranch(branches, k, scope);
        if err != None {
          Fails(P(), BranchesUpTo(branches, k + 1, scope), BranchesUpTo(branches, |branches|, scope), old(seenTables),
                seenTables, old(seenTables), err);
          return;
        }
      }
    }

    // First every definition, then every body under the scope with all siblings.
    method CheckWith(w: With, parentScope: set<string>) returns (err: Rejection, childScope: set<string>)
      modifies this
      ensures Judged(P(), InCtes(w, parentScope), old(seenTables), seenTables, err)
      ensures err == None ==> childScope == parentScope + CteNames(w)
      decreases w, 1
    {
      ghost var seen0 := seenTables;
      WithSplits(w, parentScope);
      err, childScope := CheckDefinitions(w, parentScope);
      if err != None {
        Fails(P(), Definitions(w, |w.ctes|), InCtes(w, parentScope), seen0, seenTables, seen0, err);
        return;
      }
      err := CheckBodies(w, w.ctes, childScope);
      JudgedBoth(P(), Definitions(w, |w.ctes|), BodiesUpTo(w, |w.ctes|, childScope), seen0, seen0, seenTables, err);
    }

    method CheckDefinitions(w: With, parentScope: set<string>) returns (err: Rejection, childScope: set<string>)
      ensures Judged(P(), Definitions(w, |w.ctes|), seenTables, seenTables, err)
      ensures err == None ==> childScope == parentScope + CteNames(w)
    {
      childScope := parentScope;
      if w.recursive {
        assert Banned(RecursiveWith) in Definitions(w, |w.ctes|);
        return Some(RecursiveNotAllowed), {};
      }
      assert Judged(P(), Definitions(w, 0), seenTables, seenTables, None);
      for k := 0 to |w.ctes|
        invariant Judged(P(), Definitions(w, k), seenTables, seenTables, None)
        invariant childScope == parentScope + set i | 0 <= i < k :: w.ctes[i].name
      {
        OneMoreDefinition(w, k);
        if w.ctes[k].name in allowedTables {
          assert CteDefinition(w.ctes[k].name) in Definitions(w, |w.ctes|);
          return Some(ShadowsTable), {};
        }
        if w.ctes[k].recursive {
          assert Banned(RecursiveWith) in Definitions(w, |w.ctes|);
          return Some(RecursiveNotAllowed), {};
        }
        childScope := childScope + {w.ctes[k].name};
      }
      err := None;
    }

    method CheckBodies(ghost w: With, ctes: seq<Cte>, childScope: set<string>) returns (err: Rejection)
      requires ctes == w.ctes
      modifies this
      ensures Judged(P(), BodiesUpTo(w, |w.ctes|, childScope), old(seenTables), seenTables, err)
      decreases w, 0
    {
      err := None;
      for k := 0 to |ctes|
        invariant err == None && Judged(P(), BodiesUpTo(w, k, childScope), old(seenTables), seenTables, None)
      {
        ghost var seen := seenTables;
        if ctes[k].query == None {
          err := Some(InvalidCte);
          assert Banned(EmptyCte) in Body(w, k, childScope);
        } else {
          err := CheckResultSet(ctes[k].query.value, childScope);
        }
        JudgedBoth(P(), BodiesUpTo(w, k, childScope), Body(w, k, childScope), old(seenTables), seen, seenTables, err);
        OneMoreBody(w, k, childScope);
        if err != None {
          Fails(P(), BodiesUpTo(w, k + 1, childScope), BodiesUpTo(w, |w.ctes|, childScope), old(seenTables), seenTables,
                old(seenTables), err);
          return;
        }
      }
    }

    method CheckJoinNode(n: Node, scope: set<string>) returns (err: Rejection)
      modifies this
      ensures Judged(P(), Occurrences(n, FromItem, scope), old(seenTables), seenTables, err)
      decreases n, 2
    {
      match n {
        case Join(_, _, _, _) => err := CheckJoin(n, scope);
        case TableSource(_) => err := CheckTableSource(n, scope);
        case TableName(_, _) => err := CheckTableName(n, scope);
        case Select(_, _, _, _, _, _, _, _) => err := CheckSelect(n, scope);
        case SetOpr(_, _, _, _) => err := CheckSetOpr(n, scope);
        case _ => err := Some(UnsupportedConstruct); assert Banned(Unsupported) in Occurrences(n, FromItem, scope);
      }
    }

    method CheckJoin(n: Node, scope: set<string>) returns (err: Rejection)
      requires n.Join?
      modifies this
      ensures Judged(P(), Inside(n, scope), old(seenTables), seenTables, err)
      decreases n, 1
    {
      ghost var seen0, whole, done: set<Occurrence> := seenTables, Inside(n, scope), {};
      err := None;
      if n.left.Some? {
        err := CheckJoinNode(n.left.value, scope);
        done := Occurrences(n.left.value, FromItem, scope);
        if err != None {
          Fails(P(), done, whole, seen0, seenTables, seen0, err);
          return;
        }
      }
      ghost var seen1 := seenTables;
      if n.right.Some? {
        ghost var right := Occurrences(n.right.value, FromItem, scope);
        err := CheckJoinNode(n.right.value, scope);
        JudgedBoth(P(), done, right, seen0, seen1, seenTables, err);
        done := done + right;
        if err != None {
          Fails(P(), done, whole, seen0, seenTables, seen0, err);
          return;
        }
      }
      ghost var seen2 := seenTables;
      if n.on.Some? {
        err := CheckExpr(n.on.value, scope);
        JudgedBoth(P(), done, InExpr(n.on.value, scope), seen0, seen2, seenTables, err);
        done := done + InExpr(n.on.value, scope);
      }
      assert whole == done;
    }

    method CheckTableSource(n: Node, scope: set<string>) returns (err: Rejection)
      requires n.TableSource?
      modifies this
      ensures Judged(P(), Inside(n, scope), old(seenTables), seenTables, err)
      decreases n, 1
    {
      var src := n.source;
      match src {
        case TableName(_, _) => err := CheckTableName(src, scope);
        case Select(_, _, _, _, _, _, _, _) => err := CheckSelect(src, scope);
        case SetOpr(_, _, _, _) => err := CheckSetOpr(src, scope);
        case Join(_, _, _, _) => err := CheckJoin(src, scope);
        case _ => err := Some(UnsupportedConstruct); assert Banned(Unsupported) in Occurrences(src, Source, scope);
      }
    }

    method CheckTableName(n: Node, scope: set<string>) returns (err: Rejection)
      requires n.TableName?
      modifies this
      ensures Judged(P(), Inside(n, scope), old(seenTables), seenTables, err)
      decreases n, 0
    {
      var schema, name := n.schema, n.name;
      ghost var o := TableRef(schema, name, scope);
      assert Inside(n, scope) == {o};
      assert Tables({o}) == if IsCteRef(o) then {} else {name};
      if schema == "" {
        if name in scope {
          return None;
        }
        if name in allowedTables {
          seenTables := seenTables + {name};
          return None;
        }
        return Some(TableNotAllowed);
      }
      if schema !in allowedSchemas {
        return Some(DatabaseNotAllowed);
      }
      if name !in allowedTables {
        return Some(TableNotAllowed);
      }
      seenTables := seenTables + {name};
      return None;
    }

    method CheckExpr(e: Expr, scope: set<string>) returns (err: Rejection)
      modifies this
      ensures Judged(P(), InExpr(e, scope), old(seenTables), seenTables, err)
      ensures scope !! allowedTables ==> (err == None <==> ExprPermitted(P(), e, scope))
      decreases e, 4
    {
      var c := new ExprChecker(this, scope);
      c.Accept(e);
      err := c.err;
    }
  }

  // ---- visitor.go ----------------------------------------------------------

  // The children the library's walk descends into.
  function Args(e: Expr): seq<Expr> {
    match e
    case FuncCall(_, args) => args
    case Aggregate(_, args) => args
    case WindowFunc(_, args) => args
    case Operation(_, args) => args
    case _ => []
  }

  // What the node itself says, beside its children.
  function Head(e: Expr): set<Occurrence> {
    match e
    case FuncCall(name, _) => {Call(name)}
    case Aggregate(name, _) => {Call(Lower(name))}
    case _ => {}
  }

  lemma ExprSplits(e: Expr, scope: set<string>)
    requires e.FuncCall? || e.Aggregate? || e.Operation? || e.Column?
    ensures InExpr(e, scope) == Head(e) + ExprsUpTo(Args(e), |Args(e)|, scope)
  {
  }

  class ExprChecker {
    const v: Validator
    const scope: set<string>
    var err: Rejection

    constructor (v: Validator, scope: set<string>)
      ensures this.v == v && this.scope == scope && err == None
    {
      this.v, this.scope, err := v, scope, None;
    }

    // Enter: skip == true keeps the walk from descending.
    method Enter(e: Expr) returns (skip: bool)
      modifies this, v
      ensures old(err) != None ==> skip && err == old(err) && v.seenTables == old(v.seenTables)
      ensures old(err) == None && skip ==>
                Judged(v.P(), InExpr(e, scope), old(v.seenTables), v.seenTables, err)
      ensures old(err) == None && !skip ==>
                && err == None && v.seenTables == old(v.seenTables)
                && (e.FuncCall? || e.Aggregate? || e.Operation? || e.Column?) && AllAdmissible(v.P(), Head(e))
      ensures old(err) == None ==>
                (e.Variable? || e.ParamMarker? || e.WindowFunc?
                 || (e.FuncCall? && e.name !in ALLOWED_FUNCTIONS) || (e.Aggregate? && Lower(e.name) !in ALLOWED_FUNCTIONS)
                 ==> skip && err != None)
                && (e.Column? || e.Operation?
                    || (e.FuncCall? && e.name in ALLOWED_FUNCTIONS) || (e.Aggregate? && Lower(e.name) in ALLOWED_FUNCTIONS)
                    ==> !skip)
      decreases e, 1
    {
      if err != None {
        return true;
      }
      match e {
        case Variable(_) =>
          err := Some(VariablesNotAllowed);
          assert Banned(VariableUsed) in InExpr(e, scope);
          return true;
        case ParamMarker =>
          err := Some(MarkersNotAllowed);
          assert Banned(Placeholder) in InExpr(e, scope);
          return true;
        case FuncCall(name, _) =>
          if name !in ALLOWED_FUNCTIONS {
            err := Some(FunctionNotAllowed);
            assert Call(name) in InExpr(e, scope);
            return true;
          }
        case Aggregate(name, _) =>
          if Lower(name) !in ALLOWED_FUNCTIONS {
            err := Some(FunctionNotAllowed);
            assert Call(Lower(name)) in InExpr(e, scope);
            return true;
          }
        case WindowFunc(_, _) =>
          err := Some(WindowNotAllowed);
          assert Banned(WindowCall) in InExpr(e, scope);
          return true;
        case Subquery(query, _) =>
          if query.Some? {
            err := v.CheckResultSet(query.value, scope);
          }
          return true;
        case _ =>
      }
      return false;
    }

    // The library's walk: enter, then the children until one has failed.
    method Accept(e: Expr)
      modifies this, v
      ensures old(err) != None ==> err == old(err) && v.seenTables == old(v.seenTables)
      ensures old(err) == None ==> Judged(v.P(), InExpr(e, scope), old(v.seenTables), v.seenTables, err)
      ensures old(err) == None && scope !! v.allowedTables ==> (err == None <==> ExprPermitted(v.P(), e, scope))
      decreases e, 3
    {
      Walk(e);
      if scope !! v.allowedTables {
        SqlContents.ExprPermittedIff(v.P(), e, scope);
      }
    }

    method Walk(e: Expr)
      modifies this, v
      ensures old(err) != None ==> err == old(err) && v.seenTables == old(v.seenTables)
      ensures old(err) == None ==> Judged(v.P(), InExpr(e, scope), old(v.seenTables), v.seenTables, err)
      decreases e, 2
    {
      var skip := Enter(e);
      if skip {
        return;
      }
      ExprSplits(e, scope);
      ghost var seen0, head := v.seenTables, Head(e);
      var args := Args(e);
      for k := 0 to |args|
        invariant err == None && Judged(v.P(), head + ExprsUpTo(args, k, scope), seen0, v.seenTables, None)
      {
        ghost var seen, done := v.seenTables, head + ExprsUpTo(args, k, scope);
        Accept(args[k]);
        JudgedBoth(v.P(), done, InExpr(args[k], scope), seen0, seen, v.seenTables, err);
        OneMoreExpr(args, k, scope);
        assert done + InExpr(args[k], scope) == head + ExprsUpTo(args, k + 1, scope);
        if err != None {
          Fails(v.P(), head + ExprsUpTo(args, k + 1, scope), InExpr(e, scope), seen0, v.seenTables, seen0, err);
          return;
        }
      }
    }
  }
}
