// What a permitted statement contains, said with a plain containment relation: the
// policy of SqlPolicy neither lets anything else through nor rejects anything more.
module SqlContents {
  import opened Options
  import opened SqlAst
  import opened SqlPolicy
  import opened SqlMeaning
  import opened SqlReads

  // ---- containment ---------------------------------------------------------

  datatype Part = NodePart(n: Node) | ExprPart(e: Expr) | WithPart(w: With)

  // y stands directly inside x, in a clause the guard visits.
  predicate DirectlyIn(x: Part, y: Part) {
    match x
    case NodePart(Select(_, _, with, from, clauses, _, _, _)) =>
      || (y.WithPart? && with == Some(y.w)) || (y.NodePart? && from == Some(y.n)) || (y.ExprPart? && y.e in clauses)
    case NodePart(SetOpr(with, list, _, _)) =>
      (y.WithPart? && with == Some(y.w)) || (y.NodePart? && list == Some(y.n))
    case NodePart(SelectList(with, branches, _, _)) =>
      (y.WithPart? && with == Some(y.w)) || (y.NodePart? && y.n in branches)
    case NodePart(Join(left, right, on, _)) =>
      (y.NodePart? && (left == Some(y.n) || right == Some(y.n))) || (y.ExprPart? && on == Some(y.e))
    case NodePart(TableSource(source)) => y == NodePart(source)
    case WithPart(w) => y.NodePart? && exists k :: 0 <= k < |w.ctes| && w.ctes[k].query == Some(y.n)
    case ExprPart(FuncCall(_, args)) => y.ExprPart? && y.e in args
    case ExprPart(Aggregate(_, args)) => y.ExprPart? && y.e in args
    case ExprPart(WindowFunc(_, args)) => y.ExprPart? && y.e in args
    case ExprPart(Operation(_, args)) => y.ExprPart? && y.e in args
    case ExprPart(Subquery(query, _)) => y.NodePart? && query == Some(y.n)
    case _ => false
  }

  ghost predicate Chain(p: seq<Part>) {
    |p| > 0 && forall i :: 0 <= i < |p| - 1 ==> DirectlyIn(p[i], p[i + 1])
  }

  ghost predicate Contains(x: Part, y: Part) {
    exists p :: Chain(p) && p[0] == x && p[|p| - 1] == y
  }

  lemma ContainsItself(x: Part)
    ensures Contains(x, x)
  {
    assert Chain([x]);
  }

  lemma ContainsMore(x: Part, y: Part, z: Part)
    requires DirectlyIn(x, y) && Contains(y, z)
    ensures Contains(x, z)
  {
    hide DirectlyIn;
    var p :| Chain(p) && p[0] == y && p[|p| - 1] == z;
    var q := [x] + p;
    forall i | 0 <= i < |q| - 1 ensures DirectlyIn(q[i], q[i + 1]) {
      assert i > 0 ==> q[i] == p[i - 1] && q[i + 1] == p[i];
    }
    assert Chain(q);
  }

  // ---- what each part may be -----------------------------------------------

  predicate IsQuery(n: Node) {
    n.Select? || n.SetOpr?
  }

  predicate IsResult(n: Node) {
    IsQuery(n) || n.Join? || n.TableSource?
  }

  predicate IsFromItem(n: Node) {
    IsResult(n) || n.TableName?
  }

  predicate Decent(p: Policy, x: Part) {
    match x
    case NodePart(Select(into, lock, _, from, _, _, _, _)) => !into && !lock && (from.Some? ==> IsFromItem(from.value))
    case NodePart(SetOpr(_, list, _, _)) => list.Some? && list.value.SelectList?
    case NodePart(SelectList(_, branches, _, _)) => forall b :: b in branches ==> b.Select? || b.SelectList?
    case NodePart(Join(left, right, _, _)) =>
      (left.Some? ==> IsFromItem(left.value)) && (right.Some? ==> IsFromItem(right.value))
    case NodePart(TableSource(source)) => IsQuery(source) || source.Join? || source.TableName?
    case NodePart(TableName(_, _)) => true
    case NodePart(OtherNode) => false
    case WithPart(w) =>
      && !w.recursive
      && forall k :: 0 <= k < |w.ctes| ==>
           && !w.ctes[k].recursive && w.ctes[k].name !in p.tables
           && w.ctes[k].query.Some? && IsResult(w.ctes[k].query.value)
    case ExprPart(FuncCall(name, _)) => name in ALLOWED_FUNCTIONS
    case ExprPart(Aggregate(name, _)) => Lower(name) in ALLOWED_FUNCTIONS
    case ExprPart(Subquery(query, _)) => query.Some? ==> IsResult(query.value)
    case ExprPart(Column(_)) => true
    case ExprPart(Operation(_, _)) => true
    case ExprPart(Variable(_)) => false
    case ExprPart(ParamMarker) => false
    case ExprPart(WindowFunc(_, _)) => false
  }

  ghost predicate AllDecent(p: Policy, x: Part) {
    forall y :: Contains(x, y) ==> Decent(p, y)
  }

  lemma DecentInside(p: Policy, x: Part, y: Part)
    requires AllDecent(p, x) && DirectlyIn(x, y)
    ensures AllDecent(p, y)
  {
    forall z | Contains(y, z) ensures Decent(p, z) {
      ContainsMore(x, y, z);
    }
  }

  lemma DecentSelf(p: Policy, x: Part)
    requires AllDecent(p, x)
    ensures Decent(p, x)
  {
    ContainsItself(x);
  }

  // A table reference is provided by a CTE in scope, or by an allowed table of an allowed schema.
  predicate RefAllowed(p: Policy, x: Ref) {
    x.listed || (x.name in p.tables && (x.schema == "" || x.schema in p.schemas))
  }

  ghost predicate RefsAllowed(p: Policy, refs: set<Ref>) {
    forall x :: x in refs ==> RefAllowed(p, x)
  }

  // ---- permitted statements contain nothing else ---------------------------

  // The part passes the guard under some scope.
  ghost predicate Passes(p: Policy, x: Part) {
    match x
    case NodePart(n) => exists scope :: AllAdmissible(p, Inside(n, scope))
    case ExprPart(e) => exists scope :: AllAdmissible(p, InExpr(e, scope))
    case WithPart(w) => exists scope :: AllAdmissible(p, InCtes(w, scope))
  }

  lemma FitInside(p: Policy, n: Node, r: Role, scope: set<string>)
    requires AllAdmissible(p, Occurrences(n, r, scope))
    ensures Fits(r, n) && AllAdmissible(p, Inside(n, scope)) && Passes(p, NodePart(n))
  {
    assert !Fits(r, n) ==> Banned(Unsupported) in Occurrences(n, r, scope);
  }

  lemma SelectPasses(p: Policy, n: Node, scope: set<string>, y: Part)
    requires n.Select? && AllAdmissible(p, Inside(n, scope))
    ensures Decent(p, NodePart(n)) && (DirectlyIn(NodePart(n), y) ==> Passes(p, y))
  {
    var inner := ScopeBelow(n.with, scope);
    assert n.into ==> Banned(IntoClause) in Inside(n, scope);
    assert n.lock ==> Banned(RowLock) in Inside(n, scope);
    assert InWith(n.with, scope) <= Inside(n, scope);
    if n.from.Some? {
      FitInside(p, n.from.value, FromItem, inner);
    }
    if y.ExprPart? && y.e in n.clauses {
      var i :| 0 <= i < |n.clauses| && n.clauses[i] == y.e;
      assert InExpr(n.clauses[i], inner) <= Inside(n, scope);
      assert AllAdmissible(p, InExpr(y.e, inner));
    }
    if y.WithPart? && n.with == Some(y.w) {
      assert AllAdmissible(p, InCtes(y.w, scope));
    }
  }

  lemma SetOprPasses(p: Policy, n: Node, scope: set<string>, y: Part)
    requires n.SetOpr? && AllAdmissible(p, Inside(n, scope))
    ensures Decent(p, NodePart(n)) && (DirectlyIn(NodePart(n), y) ==> Passes(p, y))
  {
    assert n.list == None ==> Banned(EmptySetOperation) in Inside(n, scope);
    assert n.list.Some? && !n.list.value.SelectList? ==> Banned(Unsupported) in Inside(n, scope);
    assert AllAdmissible(p, Inside(n.list.value, ScopeBelow(n.with, scope)));
    assert InWith(n.with, scope) <= Inside(n, scope);
    if y.WithPart? && n.with == Some(y.w) {
      assert AllAdmissible(p, InCtes(y.w, scope));
    }
  }

  lemma ListPasses(p: Policy, n: Node, scope: set<string>, y: Part)
    requires n.SelectList? && AllAdmissible(p, Inside(n, scope))
    ensures Decent(p, NodePart(n)) && (DirectlyIn(NodePart(n), y) ==> Passes(p, y))
  {
    var inner := ScopeBelow(n.with, scope);
    forall b | b in n.branches ensures (b.Select? || b.SelectList?) && Passes(p, NodePart(b)) {
      var i :| 0 <= i < |n.branches| && n.branches[i] == b;
      assert Occurrences(n.branches[i], Branch, inner) <= Inside(n, scope);
      FitInside(p, b, Branch, inner);
    }
    assert InWith(n.with, scope) <= Inside(n, scope);
    if y.WithPart? && n.with == Some(y.w) {
      assert AllAdmissible(p, InCtes(y.w, scope));
    }
  }

  lemma JoinPasses(p: Policy, n: Node, scope: set<string>, y: Part)
    requires n.Join? && AllAdmissible(p, Inside(n, scope))
    ensures Decent(p, NodePart(n)) && (DirectlyIn(NodePart(n), y) ==> Passes(p, y))
  {
    if n.left.Some? {
      FitInside(p, n.left.value, FromItem, scope);
    }
    if n.right.Some? {
      FitInside(p, n.right.value, FromItem, scope);
    }
    if n.on.Some? {
      assert AllAdmissible(p, InExpr(n.on.value, scope));
    }
  }

  lemma NodePasses(p: Policy, n: Node, scope: set<string>, y: Part)
    requires AllAdmissible(p, Inside(n, scope))
    ensures Decent(p, NodePart(n)) && (DirectlyIn(NodePart(n), y) ==> Passes(p, y))
  {
    match n {
      case Select(_, _, _, _, _, _, _, _) => SelectPasses(p, n, scope, y);
      case SetOpr(_, _, _, _) => SetOprPasses(p, n, scope, y);
      case SelectList(_, _, _, _) => ListPasses(p, n, scope, y);
      case Join(_, _, _, _) => JoinPasses(p, n, scope, y);
      case TableSource(source) => FitInside(p, source, Source, scope);
      case TableName(_, _) =>
      case OtherNode =>
    }
  }

  lemma WithPasses(p: Policy, w: With, scope: set<string>, y: Part)
    requires AllAdmissible(p, InCtes(w, scope))
    ensures Decent(p, WithPart(w)) && (DirectlyIn(WithPart(w), y) ==> Passes(p, y))
  {
    var inner := scope + CteNames(w);
    assert w.recursive ==> Banned(RecursiveWith) in InCtes(w, scope);
    forall k | 0 <= k < |w.ctes|
      ensures !w.ctes[k].recursive && w.ctes[k].name !in p.tables
      ensures w.ctes[k].query.Some? && IsResult(w.ctes[k].query.value) && Passes(p, NodePart(w.ctes[k].query.value))
    {
      assert CteDefinition(w.ctes[k].name) in InCtes(w, scope);
      assert w.ctes[k].recursive ==> Banned(RecursiveWith) in InCtes(w, scope);
      assert w.ctes[k].query == None ==> Banned(EmptyCte) in InCtes(w, scope);
      assert Occurrences(w.ctes[k].query.value, ResultSet, inner) <= InCtes(w, scope);
      FitInside(p, w.ctes[k].query.value, ResultSet, inner);
    }
  }

  lemma ArgsPass(p: Policy, e: Expr, args: seq<Expr>, scope: set<string>, y: Part)
    requires (e.FuncCall? && args == e.args) || (e.Aggregate? && args == e.args) || (e.Operation? && args == e.args)
    requires AllAdmissible(p, InExpr(e, scope)) && y.ExprPart? && y.e in args
    ensures Passes(p, y)
  {
    var i :| 0 <= i < |args| && args[i] == y.e;
    assert InExpr(args[i], scope) <= InExpr(e, scope);
    assert AllAdmissible(p, InExpr(y.e, scope));
  }

  lemma ExprPasses(p: Policy, e: Expr, scope: set<string>, y: Part)
    requires AllAdmissible(p, InExpr(e, scope))
    ensures Decent(p, ExprPart(e)) && (DirectlyIn(ExprPart(e), y) ==> Passes(p, y))
  {
    match e {
      case Variable(_) =>
      case ParamMarker =>
      case WindowFunc(_, _) =>
      case FuncCall(name, args) =>
        assert Call(name) in InExpr(e, scope);
        if DirectlyIn(ExprPart(e), y) { ArgsPass(p, e, args, scope, y); }
      case Aggregate(name, args) =>
        assert Call(Lower(name)) in InExpr(e, scope);
        if DirectlyIn(ExprPart(e), y) { ArgsPass(p, e, args, scope, y); }
      case Operation(_, args) =>
        if DirectlyIn(ExprPart(e), y) { ArgsPass(p, e, args, scope, y); }
      case Subquery(query, _) =>
        if query.Some? { FitInside(p, query.value, ResultSet, scope); }
      case Column(_) =>
    }
  }

  lemma PassesIsDecent(p: Policy, x: Part, y: Part)
    requires Passes(p, x)
    ensures Decent(p, x) && (DirectlyIn(x, y) ==> Passes(p, y))
  {
    match x {
      case NodePart(n) =>
        var scope :| AllAdmissible(p, Inside(n, scope));
        NodePasses(p, n, scope, y);
      case ExprPart(e) =>
        var scope :| AllAdmissible(p, InExpr(e, scope));
        ExprPasses(p, e, scope, y);
      case WithPart(w) =>
        var scope :| AllAdmissible(p, InCtes(w, scope));
        WithPasses(p, w, scope, y);
    }
  }

  lemma {:induction false} ChainPasses(p: Policy, c: seq<Part>)
    requires Chain(c) && Passes(p, c[0])
    ensures Decent(p, c[|c| - 1])
    decreases |c|
  {
    hide Passes, DirectlyIn, Decent;
    if |c| == 1 {
      PassesIsDecent(p, c[0], c[0]);
    } else {
      PassesIsDecent(p, c[0], c[1]);
      var d := c[1..];
      assert Chain(d) by {
        forall i | 0 <= i < |d| - 1 ensures DirectlyIn(d[i], d[i + 1]) {
          assert d[i] == c[i + 1] && d[i + 1] == c[i + 2];
        }
      }
      ChainPasses(p, d);
    }
  }

  // ---- decent statements with allowed references are permitted -------------

  lemma RefsOf(p: Policy, whole: set<Ref>, part: set<Ref>)
    requires RefsAllowed(p, whole) && part <= whole
    ensures RefsAllowed(p, part)
  {
  }

  lemma {:induction false} PartAdmitted(p: Policy, x: Part, n: Node, r: Role, bound: set<string>, listed: set<string>)
    requires AllDecent(p, x) && DirectlyIn(x, NodePart(n)) && Fits(r, n) && RefsAllowed(p, Refs(n, bound, listed))
    ensures AllAdmissible(p, Occurrences(n, r, listed))
    decreases n, 2
  {
    DecentInside(p, x, NodePart(n));
    NodeAdmitted(p, n, bound, listed);
  }

  lemma {:induction false} NodeAdmitted(p: Policy, n: Node, bound: set<string>, listed: set<string>)
    requires AllDecent(p, NodePart(n)) && RefsAllowed(p, Refs(n, bound, listed))
    ensures AllAdmissible(p, Inside(n, listed))
    decreases n, 1
  {
    DecentSelf(p, NodePart(n));
    match n {
      case Select(_, _, _, _, _, _, _, _) => SelectAdmitted(p, n, bound, listed);
      case SetOpr(_, _, _, _) => SetOprAdmitted(p, n, bound, listed);
      case SelectList(_, _, _, _) => ListAdmitted(p, n, bound, listed);
      case Join(left, right, on, _) => JoinAdmitted(p, n, bound, listed);
      case TableSource(source) => PartAdmitted(p, NodePart(n), source, Source, bound, listed);
      case TableName(schema, name) =>
        assert Ref(schema, name, schema == "" && name in bound, schema == "" && name in listed) in Refs(n, bound, listed);
      case OtherNode =>
    }
  }

  lemma {:induction false} SelectAdmitted(p: Policy, n: Node, bound: set<string>, listed: set<string>)
    requires n.Select? && AllDecent(p, NodePart(n)) && Decent(p, NodePart(n)) && RefsAllowed(p, Refs(n, bound, listed))
    ensures AllAdmissible(p, Inside(n, listed))
    decreases n, 0
  {
    var b, l := ScopeBelow(n.with, bound), ScopeBelow(n.with, listed);
    hide AllDecent;
    RefsOf(p, Refs(n, bound, listed), RefsWith(n.with, bound, listed));
    WithAdmitted(p, NodePart(n), n.with, bound, listed);
    if n.from.Some? {
      RefsOf(p, Refs(n, bound, listed), Refs(n.from.value, b, l));
      PartAdmitted(p, NodePart(n), n.from.value, FromItem, b, l);
    }
    forall i | 0 <= i < |n.clauses| ensures AllAdmissible(p, InExpr(n.clauses[i], l)) {
      RefsOf(p, Refs(n, bound, listed), RefsExpr(n.clauses[i], b, l));
      DecentInside(p, NodePart(n), ExprPart(n.clauses[i]));
      ExprAdmitted(p, n.clauses[i], b, l);
    }
  }

  lemma {:induction false} SetOprAdmitted(p: Policy, n: Node, bound: set<string>, listed: set<string>)
    requires n.SetOpr? && AllDecent(p, NodePart(n)) && Decent(p, NodePart(n)) && RefsAllowed(p, Refs(n, bound, listed))
    ensures AllAdmissible(p, Inside(n, listed))
    decreases n, 0
  {
    var b, l := ScopeBelow(n.with, bound), ScopeBelow(n.with, listed);
    RefsOf(p, Refs(n, bound, listed), RefsWith(n.with, bound, listed));
    RefsOf(p, Refs(n, bound, listed), Refs(n.list.value, b, l));
    hide AllDecent;
    WithAdmitted(p, NodePart(n), n.with, bound, listed);
    DecentInside(p, NodePart(n), NodePart(n.list.value));
    NodeAdmitted(p, n.list.value, b, l);
  }

  lemma {:induction false} ListAdmitted(p: Policy, n: Node, bound: set<string>, listed: set<string>)
    requires n.SelectList? && AllDecent(p, NodePart(n)) && Decent(p, NodePart(n)) && RefsAllowed(p, Refs(n, bound, listed))
    ensures AllAdmissible(p, Inside(n, listed))
    decreases n, 0
  {
    var b, l := ScopeBelow(n.with, bound), ScopeBelow(n.with, listed);
    RefsOf(p, Refs(n, bound, listed), RefsWith(n.with, bound, listed));
    hide AllDecent;
    WithAdmitted(p, NodePart(n), n.with, bound, listed);
    forall i | 0 <= i < |n.branches| ensures AllAdmissible(p, Occurrences(n.branches[i], Branch, l)) {
      RefsOf(p, Refs(n, bound, listed), Refs(n.branches[i], b, l));
      assert n.branches[i] in n.branches;
      PartAdmitted(p, NodePart(n), n.branches[i], Branch, b, l);
    }
  }

  lemma {:induction false} JoinAdmitted(p: Policy, n: Node, bound: set<string>, listed: set<string>)
    requires n.Join? && AllDecent(p, NodePart(n)) && Decent(p, NodePart(n)) && RefsAllowed(p, Refs(n, bound, listed))
    ensures AllAdmissible(p, Inside(n, listed))
    decreases n, 0
  {
    hide AllDecent;
    if n.left.Some? {
      RefsOf(p, Refs(n, bound, listed), Refs(n.left.value, bound, listed));
      PartAdmitted(p, NodePart(n), n.left.value, FromItem, bound, listed);
    }
    if n.right.Some? {
      RefsOf(p, Refs(n, bound, listed), Refs(n.right.value, bound, listed));
      PartAdmitted(p, NodePart(n), n.right.value, FromItem, bound, listed);
    }
    if n.on.Some? {
      RefsOf(p, Refs(n, bound, listed), RefsExpr(n.on.value, bound, listed));
      DecentInside(p, NodePart(n), ExprPart(n.on.value));
      ExprAdmitted(p, n.on.value, bound, listed);
    }
  }

  lemma {:induction false} WithAdmitted(p: Policy, x: Part, w: Option<With>, bound: set<string>, listed: set<string>)
    requires AllDecent(p, x) && (w.Some? ==> DirectlyIn(x, WithPart(w.value))) && RefsAllowed(p, RefsWith(w, bound, listed))
    ensures AllAdmissible(p, InWith(w, listed))
    decreases w, 1
  {
    if w.Some? {
      DecentInside(p, x, WithPart(w.value));
      CtesAdmitted(p, w.value, bound, listed);
    }
  }

  lemma {:induction false} CtesAdmitted(p: Policy, w: With, bound: set<string>, listed: set<string>)
    requires AllDecent(p, WithPart(w)) && RefsAllowed(p, RefsCtes(w, bound, listed))
    ensures AllAdmissible(p, InCtes(w, listed))
    decreases w, 0
  {
    DecentSelf(p, WithPart(w));
    hide AllDecent;
    forall k | 0 <= k < |w.ctes| ensures AllAdmissible(p, Occurrences(w.ctes[k].query.value, ResultSet, listed + CteNames(w))) {
      var q := w.ctes[k].query.value;
      RefsOf(p, RefsCtes(w, bound, listed), Refs(q, bound + NamesBefore(w, k), listed + CteNames(w)));
      PartAdmitted(p, WithPart(w), q, ResultSet, bound + NamesBefore(w, k), listed + CteNames(w));
    }
  }

  lemma {:induction false} ExprAdmitted(p: Policy, e: Expr, bound: set<string>, listed: set<string>)
    requires AllDecent(p, ExprPart(e)) && RefsAllowed(p, RefsExpr(e, bound, listed))
    ensures AllAdmissible(p, InExpr(e, listed))
    decreases e, 1
  {
    DecentSelf(p, ExprPart(e));
    match e {
      case FuncCall(_, args) => ArgsAdmitted(p, e, args, bound, listed);
      case Aggregate(_, args) => ArgsAdmitted(p, e, args, bound, listed);
      case Operation(_, args) => ArgsAdmitted(p, e, args, bound, listed);
      case Subquery(query, _) =>
        if query.Some? { PartAdmitted(p, ExprPart(e), query.value, ResultSet, bound, listed); }
      case _ =>
    }
  }

  lemma {:induction false} ArgsAdmitted(p: Policy, e: Expr, args: seq<Expr>, bound: set<string>, listed: set<string>)
    requires (e.FuncCall? && args == e.args) || (e.Aggregate? && args == e.args) || (e.Operation? && args == e.args)
    requires AllDecent(p, ExprPart(e)) && RefsAllowed(p, RefsExpr(e, bound, listed))
    ensures forall i :: 0 <= i < |args| ==> AllAdmissible(p, InExpr(args[i], listed))
    decreases e, 0
  {
    hide AllDecent;
    forall i | 0 <= i < |args| ensures AllAdmissible(p, InExpr(args[i], listed)) {
      RefsOf(p, RefsExpr(e, bound, listed), RefsExpr(args[i], bound, listed));
      assert args[i] in args;
      DecentInside(p, ExprPart(e), ExprPart(args[i]));
      ExprAdmitted(p, args[i], bound, listed);
    }
  }

  // ---- the policy, exactly -------------------------------------------------

  lemma PermittedRefs(p: Policy, n: Node)
    requires Permitted(p, n)
    ensures RefsAllowed(p, Refs(n, {}, {}))
  {
    forall x | x in Refs(n, {}, {}) ensures RefAllowed(p, x) {
      RootMet(p, n, x);
      var o :| o in Occurrences(n, Root, {}) && o.TableRef? && o.schema == x.schema && o.name == x.name && IsCteRef(o) == x.listed;
      assert Admissible(p, o);
    }
  }

  // A statement is permitted exactly if it is a query, everything it contains in visited
  // clauses is decent (no INTO, no lock, no recursive or shadowing or empty CTE, only
  // allowlisted calls, no variable, parameter marker or window function, and only query
  // constructs), and every table it refers to is provided by a CTE or allowed.
  lemma PermittedIff(p: Policy, n: Node)
    ensures Permitted(p, n) <==> IsQuery(n) && AllDecent(p, NodePart(n)) && RefsAllowed(p, Refs(n, {}, {}))
  {
    if Permitted(p, n) {
      FitInside(p, n, Root, {});
      PermittedRefs(p, n);
      forall y | Contains(NodePart(n), y) ensures Decent(p, y) {
        var c :| Chain(c) && c[0] == NodePart(n) && c[|c| - 1] == y;
        ChainPasses(p, c);
      }
    }
    if IsQuery(n) && AllDecent(p, NodePart(n)) && RefsAllowed(p, Refs(n, {}, {})) {
      NodeAdmitted(p, n, {}, {});
    }
  }

  // The same for one expression under a scope of CTE names.
  lemma ExprPermittedIff(p: Policy, e: Expr, scope: set<string>)
    requires scope !! p.tables
    ensures AllAdmissible(p, InExpr(e, scope)) <==> AllDecent(p, ExprPart(e)) && RefsAllowed(p, RefsExpr(e, {}, scope))
  {
    if AllAdmissible(p, InExpr(e, scope)) {
      forall x | x in RefsExpr(e, {}, scope) ensures RefAllowed(p, x) {
        RefMetExpr(p, e, {}, scope, x);
        var o :| o in InExpr(e, scope) && o.TableRef? && o.schema == x.schema && o.name == x.name && IsCteRef(o) == x.listed;
        assert Admissible(p, o);
      }
      assert Passes(p, ExprPart(e));
      forall y | Contains(ExprPart(e), y) ensures Decent(p, y) {
        var c :| Chain(c) && c[0] == ExprPart(e) && c[|c| - 1] == y;
        ChainPasses(p, c);
      }
    }
    if AllDecent(p, ExprPart(e)) && RefsAllowed(p, RefsExpr(e, {}, scope)) {
      ExprAdmitted(p, e, {}, scope);
    }
  }

  // A call of a waiting or side-effecting function is rejected wherever it stands.
  lemma ForbiddenCallRejected(p: Policy, n: Node, e: Expr)
    requires Contains(NodePart(n), ExprPart(e)) && e.FuncCall?
    requires e.name in {"sleep", "benchmark", "load_file", "get_lock", "release_lock", "is_free_lock", "is_used_lock",
                        "master_pos_wait", "wait_for_executed_gtid_set"}
    ensures !Permitted(p, n)
  {
    PermittedIff(p, n);
    assert !Decent(p, ExprPart(e)) by { NotAllowlisted(e.name); }
  }

  lemma NotAllowlisted(name: string)
    requires name in {"sleep", "benchmark", "load_file", "get_lock", "release_lock", "is_free_lock", "is_used_lock",
                      "master_pos_wait", "wait_for_executed_gtid_set"}
    ensures name !in ALLOWED_FUNCTIONS
  {
    NotWaiting();
    NotLocking();
    NotReleasing();
    NotUsing();
    NotFollowing();
    hide ALLOWED_FUNCTIONS;
  }

  lemma NotWaiting()
    ensures "sleep" !in ALLOWED_FUNCTIONS && "benchmark" !in ALLOWED_FUNCTIONS
  {
  }

  lemma NotLocking()
    ensures "load_file" !in ALLOWED_FUNCTIONS && "get_lock" !in ALLOWED_FUNCTIONS
  {
  }

  lemma NotReleasing()
    ensures "release_lock" !in ALLOWED_FUNCTIONS && "is_free_lock" !in ALLOWED_FUNCTIONS
  {
  }

  lemma NotUsing()
    ensures "is_used_lock" !in ALLOWED_FUNCTIONS && "master_pos_wait" !in ALLOWED_FUNCTIONS
  {
  }

  lemma NotFollowing()
    ensures "wait_for_executed_gtid_set" !in ALLOWED_FUNCTIONS
  {
  }

  // ---- the tables listed, exactly ------------------------------------------

  ghost predicate RefFor(refs: set<Ref>, o: Occurrence)
    requires o.TableRef?
  {
    exists x :: x in refs && x.schema == o.schema && x.name == o.name && x.listed == IsCteRef(o)
  }

  lemma RefForMore(part: set<Ref>, whole: set<Ref>, o: Occurrence)
    requires o.TableRef? && RefFor(part, o) && part <= whole
    ensures RefFor(whole, o)
  {
  }

  lemma {:induction false} OccurrenceIsRef(n: Node, bound: set<string>, listed: set<string>, o: Occurrence)
    requires o in Inside(n, listed) && o.TableRef?
    ensures RefFor(Refs(n, bound, listed), o)
    decreases n, 1
  {
    match n {
      case Select(_, _, _, _, _, _, _, _) => SelectIsRef(n, bound, listed, o);
      case SetOpr(with, list, _, _) =>
        if o in InWith(with, listed) {
          WithIsRef(with, bound, listed, o);
        } else {
          OccurrenceIsRef(list.value, ScopeBelow(with, bound), ScopeBelow(with, listed), o);
        }
      case SelectList(_, _, _, _) => ListIsRef(n, bound, listed, o);
      case Join(left, right, on, _) =>
        if left.Some? && o in Occurrences(left.value, FromItem, listed) {
          PartIsRef(left.value, FromItem, bound, listed, o);
        } else if right.Some? && o in Occurrences(right.value, FromItem, listed) {
          PartIsRef(right.value, FromItem, bound, listed, o);
        } else {
          ExprIsRef(on.value, bound, listed, o);
        }
      case TableSource(source) => PartIsRef(source, Source, bound, listed, o);
      case TableName(schema, name) =>
        assert Ref(schema, name, schema == "" && name in bound, schema == "" && name in listed) in Refs(n, bound, listed);
      case OtherNode =>
    }
  }

  lemma {:induction false} PartIsRef(n: Node, r: Role, bound: set<string>, listed: set<string>, o: Occurrence)
    requires o in Occurrences(n, r, listed) && o.TableRef?
    ensures RefFor(Refs(n, bound, listed), o)
    decreases n, 2
  {
    OccurrenceIsRef(n, bound, listed, o);
  }

  lemma {:induction false} SelectIsRef(n: Node, bound: set<string>, listed: set<string>, o: Occurrence)
    requires n.Select? && o in Inside(n, listed) && o.TableRef?
    ensures RefFor(Refs(n, bound, listed), o)
    decreases n, 0
  {
    var b, l := ScopeBelow(n.with, bound), ScopeBelow(n.with, listed);
    if o in InWith(n.with, listed) {
      WithIsRef(n.with, bound, listed, o);
    } else if n.from.Some? && o in Occurrences(n.from.value, FromItem, l) {
      PartIsRef(n.from.value, FromItem, b, l, o);
    } else {
      var i :| 0 <= i < |n.clauses| && o in InExpr(n.clauses[i], l);
      ExprIsRef(n.clauses[i], b, l, o);
      RefForMore(RefsExpr(n.clauses[i], b, l), Refs(n, bound, listed), o);
    }
  }

  lemma {:induction false} ListIsRef(n: Node, bound: set<string>, listed: set<string>, o: Occurrence)
    requires n.SelectList? && o in Inside(n, listed) && o.TableRef?
    ensures RefFor(Refs(n, bound, listed), o)
    decreases n, 0
  {
    var b, l := ScopeBelow(n.with, bound), ScopeBelow(n.with, listed);
    if o in InWith(n.with, listed) {
      WithIsRef(n.with, bound, listed, o);
    } else {
      var i :| 0 <= i < |n.branches| && o in Occurrences(n.branches[i], Branch, l);
      PartIsRef(n.branches[i], Branch, b, l, o);
      RefForMore(Refs(n.branches[i], b, l), Refs(n, bound, listed), o);
    }
  }

  lemma {:induction false} WithIsRef(w: Option<With>, bound: set<string>, listed: set<string>, o: Occurrence)
    requires o in InWith(w, listed) && o.TableRef?
    ensures RefFor(RefsWith(w, bound, listed), o)
    decreases w, 1
  {
    var v := w.value;
    var k :| 0 <= k < |v.ctes| && v.ctes[k].query.Some?
             && o in Occurrences(v.ctes[k].query.value, ResultSet, listed + CteNames(v));
    PartIsRef(v.ctes[k].query.value, ResultSet, bound + NamesBefore(v, k), listed + CteNames(v), o);
    RefForMore(Refs(v.ctes[k].query.value, bound + NamesBefore(v, k), listed + CteNames(v)), RefsCtes(v, bound, listed), o);
  }

  lemma {:induction false} ExprIsRef(e: Expr, bound: set<string>, listed: set<string>, o: Occurrence)
    requires o in InExpr(e, listed) && o.TableRef?
    ensures RefFor(RefsExpr(e, bound, listed), o)
    decreases e, 1
  {
    match e {
      case FuncCall(_, args) => ArgsIsRef(e, args, bound, listed, o);
      case Aggregate(_, args) => ArgsIsRef(e, args, bound, listed, o);
      case Operation(_, args) => ArgsIsRef(e, args, bound, listed, o);
      case Subquery(query, _) => PartIsRef(query.value, ResultSet, bound, listed, o);
      case _ =>
    }
  }

  lemma {:induction false} ArgsIsRef(e: Expr, args: seq<Expr>, bound: set<string>, listed: set<string>, o: Occurrence)
    requires (e.FuncCall? && args == e.args) || (e.Aggregate? && args == e.args) || (e.Operation? && args == e.args)
    requires o in InExpr(e, listed) && o.TableRef?
    ensures RefFor(RefsExpr(e, bound, listed), o)
    decreases e, 0
  {
    var i :| 0 <= i < |args| && o in InExpr(args[i], listed);
    ExprIsRef(args[i], bound, listed, o);
    RefForMore(RefsExpr(args[i], bound, listed), RefsExpr(e, bound, listed), o);
  }

  // The tables of references that no CTE in scope provides.
  function TablesReferred(n: Node): set<string> {
    set x | x in Refs(n, {}, {}) && !x.listed :: x.name
  }

  // The guard lists exactly the tables a permitted statement refers to.
  lemma ListedExactly(p: Policy, n: Node)
    requires Permitted(p, n)
    ensures Listed(n) == TablesReferred(n)
  {
    forall t | t in Listed(n) ensures t in TablesReferred(n) {
      var o :| o in Occurrences(n, Root, {}) && o.TableRef? && !IsCteRef(o) && o.name == t;
      PartIsRef(n, Root, {}, {}, o);
    }
    forall t | t in TablesReferred(n) ensures t in Listed(n) {
      var x :| x in Refs(n, {}, {}) && !x.listed && x.name == t;
      RootMet(p, n, x);
      var o :| o in Occurrences(n, Root, {}) && o.TableRef? && o.schema == x.schema && o.name == x.name && IsCteRef(o) == x.listed;
      assert o.name in Listed(n);
    }
  }
}
