// The part of the SQL syntax tree that internal/sqlguard inspects. Names are
// the lower-cased forms the parser keeps beside the original spelling.
module SqlAst {
  import opened Options

  // A LIMIT operand: an unsigned or signed integer literal, or any other expression.
  datatype Operand = UintLit(u: nat) | IntLit(i: int) | OtherOperand

  datatype Limit = Limit(offset: Option<Operand>, count: Option<Operand>)

  datatype With = With(recursive: bool, ctes: seq<Cte>)

  datatype Cte = Cte(name: string, recursive: bool, query: Option<Node>)

  // clauses: field list, WHERE, GROUP BY, HAVING and ORDER BY, those that are present.
  // unvisited: expressions the guard never looks at (ORDER BY of a set operation, window
  // definitions, row lists).
  // shape, kind and ops: what the rest of the syntax says (aliases, join type, UNION ALL, ...).
  datatype Node =
    | Select(into: bool, lock: bool, with: Option<With>, from: Option<Node>, clauses: seq<Expr>,
             unvisited: seq<Expr>, shape: string, limit: Option<Limit>)
    | SetOpr(with: Option<With>, list: Option<Node>, unvisited: seq<Expr>, limit: Option<Limit>)
    | SelectList(with: Option<With>, branches: seq<Node>, unvisited: seq<Expr>, ops: string)
    | Join(left: Option<Node>, right: Option<Node>, on: Option<Expr>, kind: string)
    | TableSource(source: Node)
    | TableName(schema: string, name: string)
    | OtherNode

  datatype Expr =
    | Variable(name: string)
    | ParamMarker
    | FuncCall(name: string, args: seq<Expr>)
    | Aggregate(name: string, args: seq<Expr>)
    | WindowFunc(name: string, args: seq<Expr>)
    | Subquery(query: Option<Node>, kind: string)
    | Column(name: string)
    | Operation(op: string, args: seq<Expr>)   // literals, operators, CASE, lists, ...

  function LowerChar(c: char): char {
    if 'A' <= c <= 'Z' then c - 'A' + 'a' else c
  }

  // strings.ToLower on ASCII.
  function Lower(s: string): string {
    seq(|s|, i requires 0 <= i < |s| => LowerChar(s[i]))
  }

  function CteNames(w: With): set<string> {
    set k | 0 <= k < |w.ctes| :: w.ctes[k].name
  }

  // The names visible below an optional WITH clause: every sibling, whatever its position.
  function ScopeBelow(w: Option<With>, scope: set<string>): set<string> {
    if w == None then scope else scope + CteNames(w.value)
  }
}
