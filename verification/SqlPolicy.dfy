// What the SQL guard permits, stated without its traversal: every occurrence in
// a visited clause must be admissible.
module SqlPolicy {
  import opened Options
  import opened SqlAst

  const ALLOWED_FUNCTIONS: set<string> := {
    "count", "sum", "avg", "min", "max",
    "abs", "round", "ceil", "ceiling", "floor",
    "mod", "greatest", "least",
    "coalesce", "ifnull", "nullif", "if",
    "length", "char_length", "character_length",
    "lower", "upper", "trim", "ltrim", "rtrim",
    "concat", "concat_ws", "substring", "substr",
    "left", "right", "replace",
    "year", "month", "day", "hour", "minute",
    "second", "date", "date_format"
  }

  datatype Policy = Policy(tables: set<string>, schemas: set<string>)

  datatype Ban =
    | IntoClause | RowLock | RecursiveWith | EmptyCte | EmptySetOperation | Unsupported
    | VariableUsed | Placeholder | WindowCall

  // Something the statement says, with the CTE names visible at that place.
  datatype Occurrence =
    | TableRef(schema: string, name: string, scope: set<string>)
    | CteDefinition(name: string)
    | Call(name: string)
    | Banned(why: Ban)

  // The position a node stands in decides which kinds of node fit.
  datatype Role = Root | ResultSet | FromItem | Source | Branch

  predicate Fits(r: Role, n: Node) {
    match r
    case Root => n.Select? || n.SetOpr?
    case ResultSet => n.Select? || n.SetOpr? || n.Join? || n.TableSource?
    case FromItem => n.Select? || n.SetOpr? || n.Join? || n.TableSource? || n.TableName?
    case Source => n.Select? || n.SetOpr? || n.Join? || n.TableName?
    case Branch => n.Select? || n.SelectList?
  }

  function Occurrences(n: Node, r: Role, scope: set<string>): set<Occurrence>
    decreases n, 1
  {
    if Fits(r, n) then Inside(n, scope) else {Banned(Unsupported)}
  }

  function Inside(n: Node, scope: set<string>): set<Occurrence>
    decreases n, 0
  {
    match n
    case Select(into, lock, with, from, clauses, _, _, _) =>
      (if into then {Banned(IntoClause)} else {})
      + (if lock then {Banned(RowLock)} else {})
      + InWith(with, scope)
      + (if from == None then {} else Occurrences(from.value, FromItem, ScopeBelow(with, scope)))
      + set i, o | 0 <= i < |clauses| && o in InExpr(clauses[i], ScopeBelow(with, scope)) :: o
    case SetOpr(with, list, _, _) =>
      InWith(with, scope)
      + (if list == None then {Banned(EmptySetOperation)}
         else if list.value.SelectList? then Inside(list.value, ScopeBelow(with, scope))
         else {Banned(Unsupported)})
    case SelectList(with, branches, _, _) =>
      InWith(with, scope)
      + set i, o | 0 <= i < |branches| && o in Occurrences(branches[i], Branch, ScopeBelow(with, scope)) :: o
    case Join(left, right, on, _) =>
      (if left == None then {} else Occurrences(left.value, FromItem, scope))
      + (if right == None then {} else Occurrences(right.value, FromItem, scope))
      + (if on == None then {} else InExpr(on.value, scope))
    case TableSource(source) => Occurrences(source, Source, scope)
    case TableName(schema, name) => {TableRef(schema, name, scope)}
    case OtherNode => {Banned(Unsupported)}
  }

  // A WITH clause: its definitions, and its bodies, which see all its names.
  function InWith(w: Option<With>, scope: set<string>): set<Occurrence>
    decreases w, 0
  {
    if w == None then {} else InCtes(w.value, scope)
  }

  function InCtes(w: With, scope: set<string>): set<Occurrence>
    decreases w, 0
  {
    (if w.recursive then {Banned(RecursiveWith)} else {})
    + (set k | 0 <= k < |w.ctes| :: CteDefinition(w.ctes[k].name))
    + (set k | 0 <= k < |w.ctes| && w.ctes[k].recursive :: Banned(RecursiveWith))
    + (set k | 0 <= k < |w.ctes| && w.ctes[k].query == None :: Banned(EmptyCte))
    + set k, o | 0 <= k < |w.ctes| && w.ctes[k].query.Some?
                 && o in Occurrences(w.ctes[k].query.value, ResultSet, scope + CteNames(w)) :: o
  }

  function InExpr(e: Expr, scope: set<string>): set<Occurrence>
    decreases e, 0
  {
    match e
    case Variable(_) => {Banned(VariableUsed)}
    case ParamMarker => {Banned(Placeholder)}
    case FuncCall(name, args) =>
      {Call(name)} + set i, o | 0 <= i < |args| && o in InExpr(args[i], scope) :: o
    case Aggregate(name, args) =>
      {Call(Lower(name))} + set i, o | 0 <= i < |args| && o in InExpr(args[i], scope) :: o
    case WindowFunc(_, _) => {Banned(WindowCall)}
    case Subquery(query, _) => if query == None then {} else Occurrences(query.value, ResultSet, scope)
    case Column(_) => {}
    case Operation(_, args) => set i, o | 0 <= i < |args| && o in InExpr(args[i], scope) :: o
  }

  // Resolved by a CTE rather than by a table.
  predicate IsCteRef(o: Occurrence)
    requires o.TableRef?
  {
    o.schema == "" && o.name in o.scope
  }

  predicate Admissible(p: Policy, o: Occurrence) {
    match o
    case TableRef(schema, name, scope) =>
      IsCteRef(o) || (name in p.tables && (schema == "" || schema in p.schemas))
    case CteDefinition(name) => name !in p.tables
    case Call(name) => name in ALLOWED_FUNCTIONS
    case Banned(_) => false
  }

  ghost predicate AllAdmissible(p: Policy, occurrences: set<Occurrence>) {
    forall o :: o in occurrences ==> Admissible(p, o)
  }

  // The physical tables among the occurrences.
  function Tables(occurrences: set<Occurrence>): set<string> {
    set o | o in occurrences && o.TableRef? && !IsCteRef(o) :: o.name
  }

  ghost predicate Permitted(p: Policy, n: Node) {
    AllAdmissible(p, Occurrences(n, Root, {}))
  }
}
