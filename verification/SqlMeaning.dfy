// A reference semantics of the syntax tree, parametric in what operators, joins
// and set operations compute, with common table expressions bound from left to
// right; and what it reads.
module SqlMeaning {
  import opened Options
  import opened SqlAst

  datatype Value = Null | Number(n: int) | Text(s: string) | Many(parts: seq<Value>)

  type Row = seq<Value>
  type Relation = seq<Row>

  datatype TableId = TableId(schema: string, name: string)

  type Database = map<TableId, Relation>

  function Lookup(db: Database, id: TableId): Relation {
    if id in db then db[id] else []
  }

  // What the query language leaves to its functions: any deterministic ones will do.
  datatype Meaning = Meaning(
    home: string,                                             // the schema of an unqualified name
    column: (string, seq<Row>) -> Value,                      // a column, given the enclosing rows
    variable: string -> Value,
    operation: (string, seq<Value>) -> Value,
    call: (string, seq<Value>) -> Value,
    aggregate: (string, seq<Value>) -> Value,                 // may defer to select what needs all rows
    subquery: (string, Relation) -> Value,
    select: (string, seq<(Row, seq<Value>)>) -> Relation,     // rows with the values of their clauses
    join: (string, Relation, Relation, seq<seq<Value>>) -> Relation,
    setOperation: (string, seq<Relation>) -> Relation,
    arrange: seq<(Row, seq<Value>)> -> Relation)              // rows with the values they are ordered by

  // A literal LIMIT; an operand that is not a literal is left uninterpreted.
  function Amount(o: Option<Operand>, otherwise: nat): nat {
    match o
    case Some(UintLit(u)) => u
    case Some(IntLit(i)) => if i >= 0 then i else otherwise
    case _ => otherwise
  }

  function Drop(r: Relation, n: nat): Relation {
    if n <= |r| then r[n..] else []
  }

  function Take(r: Relation, n: nat): Relation {
    if n <= |r| then r[..n] else r
  }

  function Cut(r: Relation, l: Option<Limit>): Relation {
    if l == None then r
    else var rest := Drop(r, Amount(l.value.offset, 0)); Take(rest, Amount(l.value.count, |rest|))
  }

  function Eval(m: Meaning, db: Database, n: Node, env: map<string, Relation>, ctx: seq<Row>): Relation
    decreases n, 2
  {
    match n
    case Select(_, _, with, from, _, _, shape, limit) =>
      var inner := EvalWith(m, db, with, env, ctx);
      var rows := if from == None then [[]] else Eval(m, db, from.value, inner, ctx);
      Cut(m.select(shape, seq(|rows|, i requires 0 <= i < |rows| => 
            (rows[i], Clauses(m, db, n, inner, [rows[i]] + ctx) + Unvisited(m, db, n, inner, [rows[i]] + ctx)))), limit)
    case SetOpr(with, list, _, limit) =>
      var inner := EvalWith(m, db, with, env, ctx);
      Cut(Ordered(m, db, n, if list == None then [] else Eval(m, db, list.value, inner, ctx), inner, ctx), limit)
    case SelectList(with, branches, _, ops) =>
      var inner := EvalWith(m, db, with, env, ctx);
      var parts := seq(|branches|, i requires 0 <= i < |branches| => Eval(m, db, branches[i], inner, ctx));
      Ordered(m, db, n, m.setOperation(ops, parts), inner, ctx)
    case Join(left, right, on, kind) =>
      var l := if left == None then [[]] else Eval(m, db, left.value, env, ctx);
      var r := if right == None then [[]] else Eval(m, db, right.value, env, ctx);
      m.join(kind, l, r, Conditions(m, db, n, l, r, env, ctx))
    case TableSource(source) => Eval(m, db, source, env, ctx)
    case TableName(schema, name) =>
      if schema == "" && name in env then env[name]
      else Lookup(db, TableId(if schema == "" then m.home else schema, name))
    case OtherNode => []
  }

  // The values of a SELECT's clauses, and of a join's condition, for one row.
  function Clauses(m: Meaning, db: Database, n: Node, env: map<string, Relation>, ctx: seq<Row>): seq<Value>
    requires n.Select?
    decreases n, 1
  {
    seq(|n.clauses|, k requires 0 <= k < |n.clauses| => EvalExpr(m, db, n.clauses[k], env, ctx))
  }

  // The values of the expressions the guard does not visit.
  function Unvisited(m: Meaning, db: Database, n: Node, env: map<string, Relation>, ctx: seq<Row>): seq<Value>
    requires n.Select? || n.SetOpr? || n.SelectList?
    decreases n, 0
  {
    seq(|n.unvisited|, k requires 0 <= k < |n.unvisited| => EvalExpr(m, db, n.unvisited[k], env, ctx))
  }

  // A set operation's rows, ordered if it says so.
  function Ordered(m: Meaning, db: Database, n: Node, rows: Relation, env: map<string, Relation>, ctx: seq<Row>): Relation
    requires n.SetOpr? || n.SelectList?
    decreases n, 1
  {
    if n.unvisited == [] then rows
    else m.arrange(seq(|rows|, i requires 0 <= i < |rows| => (rows[i], Unvisited(m, db, n, env, [rows[i]] + ctx))))
  }

  function Conditions(m: Meaning, db: Database, n: Node, l: Relation, r: Relation, env: map<string, Relation>, ctx: seq<Row>)
    : seq<seq<Value>>
    requires n.Join?
    decreases n, 1
  {
    seq(|l|, i requires 0 <= i < |l| =>
      seq(|r|, k requires 0 <= k < |r| => Condition(m, db, n, env, [l[i] + r[k]] + ctx)))
  }

  function Condition(m: Meaning, db: Database, n: Node, env: map<string, Relation>, ctx: seq<Row>): Value
    requires n.Join?
    decreases n, 0
  {
    if n.on == None then Null else EvalExpr(m, db, n.on.value, env, ctx)
  }

  function EvalWith(m: Meaning, db: Database, w: Option<With>, env: map<string, Relation>, ctx: seq<Row>): map<string, Relation>
    decreases w, 1
  {
    if w == None then env else EvalCtes(m, db, w.value, |w.value.ctes|, env, ctx)
  }

  // The first k definitions, each under the ones before it.
  function EvalCtes(m: Meaning, db: Database, w: With, k: nat, env: map<string, Relation>, ctx: seq<Row>): map<string, Relation>
    requires k <= |w.ctes|
    decreases w, k
  {
    if k == 0 then env
    else
      var earlier := EvalCtes(m, db, w, k - 1, env, ctx);
      var query := w.ctes[k - 1].query;
      earlier[w.ctes[k - 1].name := if query == None then [] else Eval(m, db, query.value, earlier, ctx)]
  }

  function EvalExpr(m: Meaning, db: Database, e: Expr, env: map<string, Relation>, ctx: seq<Row>): Value
    decreases e, 1
  {
    match e
    case Variable(name) => m.variable(name)
    case ParamMarker => Null
    case FuncCall(name, args) =>
      m.call(name, seq(|args|, i requires 0 <= i < |args| => EvalExpr(m, db, args[i], env, ctx)))
    case Aggregate(name, args) =>
      m.aggregate(name, seq(|args|, i requires 0 <= i < |args| => EvalExpr(m, db, args[i], env, ctx)))
    case WindowFunc(name, args) =>
      m.aggregate(name, seq(|args|, i requires 0 <= i < |args| => EvalExpr(m, db, args[i], env, ctx)))
    case Subquery(query, kind) => if query == None then Null else m.subquery(kind, Eval(m, db, query.value, env, ctx))
    case Column(name) => m.column(name, ctx)
    case Operation(op, args) =>
      m.operation(op, seq(|args|, i requires 0 <= i < |args| => EvalExpr(m, db, args[i], env, ctx)))
  }

  // ---- what is referred to -------------------------------------------------

  // A table reference; bound: a definition earlier in the statement provides it.
  // listed: some sibling definition has this name, whatever its position.
  datatype Ref = Ref(schema: string, name: string, bound: bool, listed: bool)

  function NamesBefore(w: With, k: nat): set<string>
    requires k <= |w.ctes|
  {
    set i | 0 <= i < k :: w.ctes[i].name
  }

  // bound: names defined so far; listed: names the checker lets through.
  function Refs(n: Node, bound: set<string>, listed: set<string>): set<Ref>
    decreases n, 1
  {
    match n
    case Select(_, _, with, from, clauses, _, _, _) =>
      var b, l := ScopeBelow(with, bound), ScopeBelow(with, listed);
      RefsWith(with, bound, listed)
      + (if from == None then {} else Refs(from.value, b, l))
      + set i, x | 0 <= i < |clauses| && x in RefsExpr(clauses[i], b, l) :: x
    case SetOpr(with, list, _, _) =>
      RefsWith(with, bound, listed)
      + (if list == None then {} else Refs(list.value, ScopeBelow(with, bound), ScopeBelow(with, listed)))
    case SelectList(with, branches, _, _) =>
      var b, l := ScopeBelow(with, bound), ScopeBelow(with, listed);
      RefsWith(with, bound, listed) + set i, x | 0 <= i < |branches| && x in Refs(branches[i], b, l) :: x
    case Join(left, right, on, _) =>
      (if left == None then {} else Refs(left.value, bound, listed))
      + (if right == None then {} else Refs(right.value, bound, listed))
      + (if on == None then {} else RefsExpr(on.value, bound, listed))
    case TableSource(source) => Refs(source, bound, listed)
    case TableName(schema, name) => {Ref(schema, name, schema == "" && name in bound, schema == "" && name in listed)}
    case OtherNode => {}
  }

  function RefsWith(w: Option<With>, bound: set<string>, listed: set<string>): set<Ref>
    decreases w, 1
  {
    if w == None then {} else RefsCtes(w.value, bound, listed)
  }

  function RefsCtes(w: With, bound: set<string>, listed: set<string>): set<Ref>
    decreases w, 1
  {
    set k, x | 0 <= k < |w.ctes| && w.ctes[k].query.Some?
               && x in Refs(w.ctes[k].query.value, bound + NamesBefore(w, k), listed + CteNames(w)) :: x
  }

  function RefsExpr(e: Expr, bound: set<string>, listed: set<string>): set<Ref>
    decreases e, 1
  {
    match e
    case FuncCall(_, args) => set i, x | 0 <= i < |args| && x in RefsExpr(args[i], bound, listed) :: x
    case Aggregate(_, args) => set i, x | 0 <= i < |args| && x in RefsExpr(args[i], bound, listed) :: x
    case WindowFunc(_, args) => set i, x | 0 <= i < |args| && x in RefsExpr(args[i], bound, listed) :: x
    case Operation(_, args) => set i, x | 0 <= i < |args| && x in RefsExpr(args[i], bound, listed) :: x
    case Subquery(query, _) => if query == None then {} else Refs(query.value, bound, listed)
    case _ => {}
  }

  // The references in unvisited positions, and those of everything inside them.
  function Hidden(n: Node, bound: set<string>, listed: set<string>): set<Ref>
    decreases n, 1
  {
    match n
    case Select(_, _, with, from, clauses, unvisited, _, _) =>
      var b, l := ScopeBelow(with, bound), ScopeBelow(with, listed);
      HiddenWith(with, bound, listed)
      + (if from == None then {} else Hidden(from.value, b, l))
      + (set i, x | 0 <= i < |clauses| && x in HiddenExpr(clauses[i], b, l) :: x)
      + (set i, x | 0 <= i < |unvisited| && x in RefsExpr(unvisited[i], b, l) :: x)
      + set i, x | 0 <= i < |unvisited| && x in HiddenExpr(unvisited[i], b, l) :: x
    case SetOpr(with, list, unvisited, _) =>
      var b, l := ScopeBelow(with, bound), ScopeBelow(with, listed);
      HiddenWith(with, bound, listed)
      + (if list == None then {} else Hidden(list.value, b, l))
      + (set i, x | 0 <= i < |unvisited| && x in RefsExpr(unvisited[i], b, l) :: x)
      + set i, x | 0 <= i < |unvisited| && x in HiddenExpr(unvisited[i], b, l) :: x
    case SelectList(with, branches, unvisited, _) =>
      var b, l := ScopeBelow(with, bound), ScopeBelow(with, listed);
      HiddenWith(with, bound, listed)
      + (set i, x | 0 <= i < |branches| && x in Hidden(branches[i], b, l) :: x)
      + (set i, x | 0 <= i < |unvisited| && x in RefsExpr(unvisited[i], b, l) :: x)
      + set i, x | 0 <= i < |unvisited| && x in HiddenExpr(unvisited[i], b, l) :: x
    case Join(left, right, on, _) =>
      (if left == None then {} else Hidden(left.value, bound, listed))
      + (if right == None then {} else Hidden(right.value, bound, listed))
      + (if on == None then {} else HiddenExpr(on.value, bound, listed))
    case TableSource(source) => Hidden(source, bound, listed)
    case TableName(_, _) => {}
    case OtherNode => {}
  }

  function HiddenWith(w: Option<With>, bound: set<string>, listed: set<string>): set<Ref>
    decreases w, 1
  {
    if w == None then {} else HiddenCtes(w.value, bound, listed)
  }

  function HiddenCtes(w: With, bound: set<string>, listed: set<string>): set<Ref>
    decreases w, 1
  {
    set k, x | 0 <= k < |w.ctes| && w.ctes[k].query.Some?
               && x in Hidden(w.ctes[k].query.value, bound + NamesBefore(w, k), listed + CteNames(w)) :: x
  }

  function HiddenExpr(e: Expr, bound: set<string>, listed: set<string>): set<Ref>
    decreases e, 1
  {
    match e
    case FuncCall(_, args) => set i, x | 0 <= i < |args| && x in HiddenExpr(args[i], bound, listed) :: x
    case Aggregate(_, args) => set i, x | 0 <= i < |args| && x in HiddenExpr(args[i], bound, listed) :: x
    case WindowFunc(_, args) => set i, x | 0 <= i < |args| && x in HiddenExpr(args[i], bound, listed) :: x
    case Operation(_, args) => set i, x | 0 <= i < |args| && x in HiddenExpr(args[i], bound, listed) :: x
    case Subquery(query, _) => if query == None then {} else Hidden(query.value, bound, listed)
    case _ => {}
  }

  // The table a reference reads, unless a definition provides it.
  function IdOf(home: string, x: Ref): TableId {
    TableId(if x.schema == "" then home else x.schema, x.name)
  }

  ghost predicate AgreeOn(home: string, db: Database, db': Database, refs: set<Ref>) {
    forall x :: x in refs && !x.bound ==> Lookup(db, IdOf(home, x)) == Lookup(db', IdOf(home, x))
  }

  // The databases agree on everything a node refers to, visited or not.
  ghost predicate AgreeNode(home: string, db: Database, db': Database, n: Node, bound: set<string>, listed: set<string>) {
    AgreeOn(home, db, db', Refs(n, bound, listed)) && AgreeOn(home, db, db', Hidden(n, bound, listed))
  }

  ghost predicate AgreeExpr(home: string, db: Database, db': Database, e: Expr, bound: set<string>, listed: set<string>) {
    AgreeOn(home, db, db', RefsExpr(e, bound, listed)) && AgreeOn(home, db, db', HiddenExpr(e, bound, listed))
  }

  ghost predicate AgreeWith(home: string, db: Database, db': Database, w: Option<With>, bound: set<string>, listed: set<string>) {
    AgreeOn(home, db, db', RefsWith(w, bound, listed)) && AgreeOn(home, db, db', HiddenWith(w, bound, listed))
  }

  ghost predicate AgreeCtes(home: string, db: Database, db': Database, w: With, bound: set<string>, listed: set<string>) {
    AgreeOn(home, db, db', RefsCtes(w, bound, listed)) && AgreeOn(home, db, db', HiddenCtes(w, bound, listed))
  }

  // ---- agreement on the parts ----------------------------------------------

  lemma AgreeSelect(home: string, db: Database, db': Database, n: Node, bound: set<string>, listed: set<string>)
    requires n.Select? && AgreeNode(home, db, db', n, bound, listed)
    ensures AgreeWith(home, db, db', n.with, bound, listed)
    ensures var b, l := ScopeBelow(n.with, bound), ScopeBelow(n.with, listed);
            && (n.from.Some? ==> AgreeNode(home, db, db', n.from.value, b, l))
            && (forall k :: 0 <= k < |n.clauses| ==> AgreeExpr(home, db, db', n.clauses[k], b, l))
            && (forall k :: 0 <= k < |n.unvisited| ==> AgreeExpr(home, db, db', n.unvisited[k], b, l))
  {
  }

  lemma AgreeSetOpr(home: string, db: Database, db': Database, n: Node, bound: set<string>, listed: set<string>)
    requires n.SetOpr? && AgreeNode(home, db, db', n, bound, listed)
    ensures AgreeWith(home, db, db', n.with, bound, listed)
    ensures var b, l := ScopeBelow(n.with, bound), ScopeBelow(n.with, listed);
            && (n.list.Some? ==> AgreeNode(home, db, db', n.list.value, b, l))
            && (forall k :: 0 <= k < |n.unvisited| ==> AgreeExpr(home, db, db', n.unvisited[k], b, l))
  {
  }

  lemma AgreeList(home: string, db: Database, db': Database, n: Node, bound: set<string>, listed: set<string>)
    requires n.SelectList? && AgreeNode(home, db, db', n, bound, listed)
    ensures AgreeWith(home, db, db', n.with, bound, listed)
    ensures var b, l := ScopeBelow(n.with, bound), ScopeBelow(n.with, listed);
            && (forall k :: 0 <= k < |n.branches| ==> AgreeNode(home, db, db', n.branches[k], b, l))
            && (forall k :: 0 <= k < |n.unvisited| ==> AgreeExpr(home, db, db', n.unvisited[k], b, l))
  {
  }

  lemma AgreeJoin(home: string, db: Database, db': Database, n: Node, bound: set<string>, listed: set<string>)
    requires n.Join? && AgreeNode(home, db, db', n, bound, listed)
    ensures n.left.Some? ==> AgreeNode(home, db, db', n.left.value, bound, listed)
    ensures n.right.Some? ==> AgreeNode(home, db, db', n.right.value, bound, listed)
    ensures n.on.Some? ==> AgreeExpr(home, db, db', n.on.value, bound, listed)
  {
  }

  lemma AgreeBody(home: string, db: Database, db': Database, w: With, k: nat, bound: set<string>, listed: set<string>)
    requires k < |w.ctes| && w.ctes[k].query.Some? && AgreeCtes(home, db, db', w, bound, listed)
    ensures AgreeNode(home, db, db', w.ctes[k].query.value, bound + NamesBefore(w, k), listed + CteNames(w))
  {
  }

  lemma AgreeArgs(home: string, db: Database, db': Database, e: Expr, args: seq<Expr>, bound: set<string>, listed: set<string>)
    requires (e.FuncCall? && args == e.args) || (e.Aggregate? && args == e.args)
          || (e.WindowFunc? && args == e.args) || (e.Operation? && args == e.args)
    requires AgreeExpr(home, db, db', e, bound, listed)
    ensures forall k :: 0 <= k < |args| ==> AgreeExpr(home, db, db', args[k], bound, listed)
  {
  }

  // ---- what is not read has no influence -----------------------------------

  lemma {:induction false} SameRows(m: Meaning, db: Database, db': Database, n: Node, env: map<string, Relation>,
                                    ctx: seq<Row>, listed: set<string>)
    requires AgreeNode(m.home, db, db', n, env.Keys, listed)
    ensures Eval(m, db, n, env, ctx) == Eval(m, db', n, env, ctx)
    decreases n, 3
  {
    match n {
      case Select(_, _, _, _, _, _, _, _) => SameSelect(m, db, db', n, env, ctx, listed);
      case SetOpr(_, _, _, _) => SameSetOpr(m, db, db', n, env, ctx, listed);
      case SelectList(_, _, _, _) => SameList(m, db, db', n, env, ctx, listed);
      case Join(_, _, _, _) => SameJoin(m, db, db', n, env, ctx, listed);
      case TableSource(source) => SameRows(m, db, db', source, env, ctx, listed);
      case TableName(schema, name) =>
        var x := Ref(schema, name, schema == "" && name in env.Keys, schema == "" && name in listed);
        assert x in Refs(n, env.Keys, listed);
      case OtherNode =>
    }
  }

  lemma {:induction false} SameSelect(m: Meaning, db: Database, db': Database, n: Node, env: map<string, Relation>,
                                      ctx: seq<Row>, listed: set<string>)
    requires n.Select? && AgreeNode(m.home, db, db', n, env.Keys, listed)
    ensures Eval(m, db, n, env, ctx) == Eval(m, db', n, env, ctx)
    decreases n, 2
  {
    hide AgreeNode, AgreeExpr, AgreeWith, Clauses, Unvisited, Cut;
    AgreeSelect(m.home, db, db', n, env.Keys, listed);
    SameWith(m, db, db', n.with, env, ctx, listed);
    var inner, l := EvalWith(m, db, n.with, env, ctx), ScopeBelow(n.with, listed);
    if n.from.Some? {
      SameRows(m, db, db', n.from.value, inner, ctx, l);
    }
    var rows := if n.from == None then [[]] else Eval(m, db, n.from.value, inner, ctx);
    forall i | 0 <= i < |rows|
      ensures Clauses(m, db, n, inner, [rows[i]] + ctx) == Clauses(m, db', n, inner, [rows[i]] + ctx)
      ensures Unvisited(m, db, n, inner, [rows[i]] + ctx) == Unvisited(m, db', n, inner, [rows[i]] + ctx)
    {
      SameClauses(m, db, db', n, inner, [rows[i]] + ctx, l);
      SameUnvisited(m, db, db', n, inner, [rows[i]] + ctx, l);
    }
    assert seq(|rows|, i requires 0 <= i < |rows| =>
             (rows[i], Clauses(m, db, n, inner, [rows[i]] + ctx) + Unvisited(m, db, n, inner, [rows[i]] + ctx)))
        == seq(|rows|, i requires 0 <= i < |rows| =>
             (rows[i], Clauses(m, db', n, inner, [rows[i]] + ctx) + Unvisited(m, db', n, inner, [rows[i]] + ctx)));
  }

  lemma {:induction false} SameSetOpr(m: Meaning, db: Database, db': Database, n: Node, env: map<string, Relation>,
                                      ctx: seq<Row>, listed: set<string>)
    requires n.SetOpr? && AgreeNode(m.home, db, db', n, env.Keys, listed)
    ensures Eval(m, db, n, env, ctx) == Eval(m, db', n, env, ctx)
    decreases n, 2
  {
    hide AgreeNode, AgreeExpr, AgreeWith, Ordered, Cut;
    AgreeSetOpr(m.home, db, db', n, env.Keys, listed);
    SameWith(m, db, db', n.with, env, ctx, listed);
    var inner, l := EvalWith(m, db, n.with, env, ctx), ScopeBelow(n.with, listed);
    if n.list.Some? {
      SameRows(m, db, db', n.list.value, inner, ctx, l);
    }
    var rows := if n.list == None then [] else Eval(m, db, n.list.value, inner, ctx);
    SameOrdered(m, db, db', n, rows, inner, ctx, l);
  }

  lemma {:induction false} SameList(m: Meaning, db: Database, db': Database, n: Node, env: map<string, Relation>,
                                    ctx: seq<Row>, listed: set<string>)
    requires n.SelectList? && AgreeNode(m.home, db, db', n, env.Keys, listed)
    ensures Eval(m, db, n, env, ctx) == Eval(m, db', n, env, ctx)
    decreases n, 2
  {
    hide AgreeNode, AgreeExpr, AgreeWith, Ordered;
    AgreeList(m.home, db, db', n, env.Keys, listed);
    SameWith(m, db, db', n.with, env, ctx, listed);
    var inner, l, branches := EvalWith(m, db, n.with, env, ctx), ScopeBelow(n.with, listed), n.branches;
    forall i | 0 <= i < |branches| ensures Eval(m, db, branches[i], inner, ctx) == Eval(m, db', branches[i], inner, ctx) {
      SameRows(m, db, db', branches[i], inner, ctx, l);
    }
    var parts := seq(|branches|, i requires 0 <= i < |branches| => Eval(m, db, branches[i], inner, ctx));
    assert parts == seq(|branches|, i requires 0 <= i < |branches| => Eval(m, db', branches[i], inner, ctx));
    SameOrdered(m, db, db', n, m.setOperation(n.ops, parts), inner, ctx, l);
  }

  lemma {:induction false} SameJoin(m: Meaning, db: Database, db': Database, n: Node, env: map<string, Relation>,
                                    ctx: seq<Row>, listed: set<string>)
    requires n.Join? && AgreeNode(m.home, db, db', n, env.Keys, listed)
    ensures Eval(m, db, n, env, ctx) == Eval(m, db', n, env, ctx)
    decreases n, 2
  {
    hide AgreeNode, AgreeExpr, Condition, Conditions;
    AgreeJoin(m.home, db, db', n, env.Keys, listed);
    if n.left.Some? {
      SameRows(m, db, db', n.left.value, env, ctx, listed);
    }
    if n.right.Some? {
      SameRows(m, db, db', n.right.value, env, ctx, listed);
    }
    var l := if n.left == None then [[]] else Eval(m, db, n.left.value, env, ctx);
    var r := if n.right == None then [[]] else Eval(m, db, n.right.value, env, ctx);
    forall row ensures Condition(m, db, n, env, [row] + ctx) == Condition(m, db', n, env, [row] + ctx) {
      SameCondition(m, db, db', n, env, [row] + ctx, listed);
    }
    SameMatrix(m, db, db', n, l, r, env, ctx);
  }

  lemma SameMatrix(m: Meaning, db: Database, db': Database, n: Node, l: Relation, r: Relation,
                   env: map<string, Relation>, ctx: seq<Row>)
    requires n.Join?
    requires forall row :: Condition(m, db, n, env, [row] + ctx) == Condition(m, db', n, env, [row] + ctx)
    ensures Conditions(m, db, n, l, r, env, ctx) == Conditions(m, db', n, l, r, env, ctx)
  {
    hide Condition;
    forall i | 0 <= i < |l|
      ensures seq(|r|, k requires 0 <= k < |r| => Condition(m, db, n, env, [l[i] + r[k]] + ctx))
           == seq(|r|, k requires 0 <= k < |r| => Condition(m, db', n, env, [l[i] + r[k]] + ctx))
    {
    }
  }

  lemma {:induction false} SameCondition(m: Meaning, db: Database, db': Database, n: Node, env: map<string, Relation>,
                                         ctx: seq<Row>, listed: set<string>)
    requires n.Join? && (n.on.Some? ==> AgreeExpr(m.home, db, db', n.on.value, env.Keys, listed))
    ensures Condition(m, db, n, env, ctx) == Condition(m, db', n, env, ctx)
    decreases n, 0
  {
    hide AgreeExpr;
    if n.on.Some? {
      SameValue(m, db, db', n.on.value, env, ctx, listed);
    }
  }

  lemma {:induction false} SameClauses(m: Meaning, db: Database, db': Database, n: Node, env: map<string, Relation>,
                                       ctx: seq<Row>, listed: set<string>)
    requires n.Select?
    requires forall k :: 0 <= k < |n.clauses| ==> AgreeExpr(m.home, db, db', n.clauses[k], env.Keys, listed)
    ensures Clauses(m, db, n, env, ctx) == Clauses(m, db', n, env, ctx)
    decreases n, 0
  {
    hide AgreeExpr;
    forall k | 0 <= k < |n.clauses| ensures EvalExpr(m, db, n.clauses[k], env, ctx) == EvalExpr(m, db', n.clauses[k], env, ctx) {
      SameValue(m, db, db', n.clauses[k], env, ctx, listed);
    }
  }

  lemma {:induction false} SameUnvisited(m: Meaning, db: Database, db': Database, n: Node, env: map<string, Relation>,
                                         ctx: seq<Row>, listed: set<string>)
    requires n.Select? || n.SetOpr? || n.SelectList?
    requires forall k :: 0 <= k < |n.unvisited| ==> AgreeExpr(m.home, db, db', n.unvisited[k], env.Keys, listed)
    ensures Unvisited(m, db, n, env, ctx) == Unvisited(m, db', n, env, ctx)
    decreases n, 0
  {
    hide AgreeExpr;
    var es := n.unvisited;
    forall k | 0 <= k < |es| ensures EvalExpr(m, db, es[k], env, ctx) == EvalExpr(m, db', es[k], env, ctx) {
      SameValue(m, db, db', es[k], env, ctx, listed);
    }
  }

  lemma {:induction false} SameOrdered(m: Meaning, db: Database, db': Database, n: Node, rows: Relation,
                                       env: map<string, Relation>, ctx: seq<Row>, listed: set<string>)
    requires n.SetOpr? || n.SelectList?
    requires forall k :: 0 <= k < |n.unvisited| ==> AgreeExpr(m.home, db, db', n.unvisited[k], env.Keys, listed)
    ensures Ordered(m, db, n, rows, env, ctx) == Ordered(m, db', n, rows, env, ctx)
    decreases n, 1
  {
    hide AgreeExpr, Unvisited;
    forall i | 0 <= i < |rows|
      ensures Unvisited(m, db, n, env, [rows[i]] + ctx) == Unvisited(m, db', n, env, [rows[i]] + ctx)
    {
      SameUnvisited(m, db, db', n, env, [rows[i]] + ctx, listed);
    }
    assert seq(|rows|, i requires 0 <= i < |rows| => (rows[i], Unvisited(m, db, n, env, [rows[i]] + ctx)))
        == seq(|rows|, i requires 0 <= i < |rows| => (rows[i], Unvisited(m, db', n, env, [rows[i]] + ctx)));
  }

  lemma {:induction false} SameWith(m: Meaning, db: Database, db': Database, w: Option<With>, env: map<string, Relation>,
                                    ctx: seq<Row>, listed: set<string>)
    requires AgreeWith(m.home, db, db', w, env.Keys, listed)
    ensures EvalWith(m, db, w, env, ctx) == EvalWith(m, db', w, env, ctx)
    ensures EvalWith(m, db, w, env, ctx).Keys == ScopeBelow(w, env.Keys)
    decreases w, 1
  {
    if w.Some? {
      SameCtes(m, db, db', w.value, |w.value.ctes|, env, ctx, listed);
    }
  }

  lemma {:induction false} SameCtes(m: Meaning, db: Database, db': Database, w: With, k: nat, env: map<string, Relation>,
                                    ctx: seq<Row>, listed: set<string>)
    requires k <= |w.ctes| && AgreeCtes(m.home, db, db', w, env.Keys, listed)
    ensures EvalCtes(m, db, w, k, env, ctx) == EvalCtes(m, db', w, k, env, ctx)
    ensures EvalCtes(m, db, w, k, env, ctx).Keys == env.Keys + NamesBefore(w, k)
    decreases w, k
  {
    hide AgreeCtes, AgreeNode;
    if k > 0 {
      SameCtes(m, db, db', w, k - 1, env, ctx, listed);
      var earlier := EvalCtes(m, db, w, k - 1, env, ctx);
      if w.ctes[k - 1].query.Some? {
        AgreeBody(m.home, db, db', w, k - 1, env.Keys, listed);
        SameRows(m, db, db', w.ctes[k - 1].query.value, earlier, ctx, listed + CteNames(w));
      }
    }
  }

  lemma {:induction false} SameValue(m: Meaning, db: Database, db': Database, e: Expr, env: map<string, Relation>,
                                     ctx: seq<Row>, listed: set<string>)
    requires AgreeExpr(m.home, db, db', e, env.Keys, listed)
    ensures EvalExpr(m, db, e, env, ctx) == EvalExpr(m, db', e, env, ctx)
    decreases e, 1
  {
    match e {
      case FuncCall(_, args) => SameValues(m, db, db', e, args, env, ctx, listed);
      case Aggregate(_, args) => SameValues(m, db, db', e, args, env, ctx, listed);
      case WindowFunc(_, args) => SameValues(m, db, db', e, args, env, ctx, listed);
      case Operation(_, args) => SameValues(m, db, db', e, args, env, ctx, listed);
      case Subquery(query, _) =>
        if query.Some? {
          SameRows(m, db, db', query.value, env, ctx, listed);
        }
      case _ =>
    }
  }

  lemma {:induction false} SameValues(m: Meaning, db: Database, db': Database, e: Expr, args: seq<Expr>,
                                      env: map<string, Relation>, ctx: seq<Row>, listed: set<string>)
    requires AgreeExpr(m.home, db, db', e, env.Keys, listed)
    requires (e.FuncCall? && args == e.args) || (e.Aggregate? && args == e.args)
          || (e.WindowFunc? && args == e.args) || (e.Operation? && args == e.args)
    ensures seq(|args|, i requires 0 <= i < |args| => EvalExpr(m, db, args[i], env, ctx))
         == seq(|args|, i requires 0 <= i < |args| => EvalExpr(m, db', args[i], env, ctx))
    decreases e, 0
  {
    hide AgreeExpr;
    AgreeArgs(m.home, db, db', e, args, env.Keys, listed);
    forall i | 0 <= i < |args| ensures EvalExpr(m, db, args[i], env, ctx) == EvalExpr(m, db', args[i], env, ctx) {
      SameValue(m, db, db', args[i], env, ctx, listed);
    }
  }
}
