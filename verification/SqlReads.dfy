// What an accepted statement can read: the tables the guard lists, and nothing
// else exactly when every CTE body names only earlier siblings and the expressions
// the guard does not visit name only listed tables.
module SqlReads {
  import opened Options
  import opened SqlAst
  import opened SqlPolicy
  import opened SqlMeaning

  // The checker met this reference, and resolved it as listed says.
  ghost predicate ShownIn(occurrences: set<Occurrence>, x: Ref) {
    exists o :: o in occurrences && o.TableRef? && o.schema == x.schema && o.name == x.name && IsCteRef(o) == x.listed
  }

  ghost predicate Met(p: Policy, occurrences: set<Occurrence>, x: Ref) {
    ShownIn(occurrences, x) && (x.bound ==> x.listed) && (x.listed ==> x.schema == "" && x.name !in p.tables)
  }

  lemma MetInWhole(p: Policy, part: set<Occurrence>, whole: set<Occurrence>, x: Ref)
    requires Met(p, part, x) && part <= whole
    ensures Met(p, whole, x)
  {
  }

  // CTE names visible so far are no physical tables.
  predicate Scoped(p: Policy, bound: set<string>, listed: set<string>) {
    bound <= listed && listed !! p.tables
  }

  lemma ScopedBelow(p: Policy, w: Option<With>, bound: set<string>, listed: set<string>)
    requires Scoped(p, bound, listed) && AllAdmissible(p, InWith(w, listed))
    ensures Scoped(p, ScopeBelow(w, bound), ScopeBelow(w, listed))
    ensures w.Some? ==> forall k :: 0 <= k <= |w.value.ctes| ==>
              Scoped(p, bound + NamesBefore(w.value, k), listed + CteNames(w.value))
  {
    if w.Some? {
      forall x | x in CteNames(w.value) ensures x !in p.tables {
        assert CteDefinition(x) in InWith(w, listed);
      }
    }
  }

  // Every reference of an accepted node was met by the checker.
  lemma {:induction false} RefMet(p: Policy, n: Node, bound: set<string>, listed: set<string>, x: Ref)
    requires AllAdmissible(p, Inside(n, listed)) && Scoped(p, bound, listed) && x in Refs(n, bound, listed)
    ensures Met(p, Inside(n, listed), x)
    decreases n, 1
  {
    match n {
      case Select(_, _, with, from, clauses, _, _, _) =>
        var b, l := ScopeBelow(with, bound), ScopeBelow(with, listed);
        if x in RefsWith(with, bound, listed) {
          RefMetWith(p, with, bound, listed, x);
          MetInWhole(p, InWith(with, listed), Inside(n, listed), x);
        } else if from.Some? && x in Refs(from.value, b, l) {
          ScopedBelow(p, with, bound, listed);
          RefMetPart(p, from.value, FromItem, b, l, x, Inside(n, listed));
        } else {
          var i :| 0 <= i < |clauses| && x in RefsExpr(clauses[i], b, l);
          ScopedBelow(p, with, bound, listed);
          assert InExpr(clauses[i], l) <= Inside(n, listed);
          RefMetExpr(p, clauses[i], b, l, x);
        }
      case SetOpr(with, list, _, _) =>
        if x in RefsWith(with, bound, listed) {
          RefMetWith(p, with, bound, listed, x);
        } else {
          ScopedBelow(p, with, bound, listed);
          assert !list.value.SelectList? ==> Banned(Unsupported) in Inside(n, listed);
          RefMet(p, list.value, ScopeBelow(with, bound), ScopeBelow(with, listed), x);
        }
      case SelectList(_, _, _, _) => RefMetList(p, n, bound, listed, x);
      case Join(left, right, on, _) =>
        if left.Some? && x in Refs(left.value, bound, listed) {
          RefMetPart(p, left.value, FromItem, bound, listed, x, Inside(n, listed));
        } else if right.Some? && x in Refs(right.value, bound, listed) {
          RefMetPart(p, right.value, FromItem, bound, listed, x, Inside(n, listed));
        } else {
          RefMetExpr(p, on.value, bound, listed, x);
        }
      case TableSource(source) => RefMetPart(p, source, Source, bound, listed, x, Inside(n, listed));
      case TableName(schema, name) => assert TableRef(schema, name, listed) in Inside(n, listed);
      case OtherNode =>
    }
  }

  lemma {:induction false} RefMetList(p: Policy, n: Node, bound: set<string>, listed: set<string>, x: Ref)
    requires n.SelectList?
    requires AllAdmissible(p, Inside(n, listed)) && Scoped(p, bound, listed) && x in Refs(n, bound, listed)
    ensures Met(p, Inside(n, listed), x)
    decreases n, 0
  {
    var b, l := ScopeBelow(n.with, bound), ScopeBelow(n.with, listed);
    if x in RefsWith(n.with, bound, listed) {
      RefMetWith(p, n.with, bound, listed, x);
    } else {
      var i :| 0 <= i < |n.branches| && x in Refs(n.branches[i], b, l);
      ScopedBelow(p, n.with, bound, listed);
      assert Occurrences(n.branches[i], Branch, l) <= Inside(n, listed);
      RefMetPart(p, n.branches[i], Branch, b, l, x, Inside(n, listed));
    }
  }

  // A part in some position of a whole that is accepted.
  lemma {:induction false} RefMetPart(p: Policy, n: Node, r: Role, bound: set<string>, listed: set<string>, x: Ref,
                                      whole: set<Occurrence>)
    requires Occurrences(n, r, listed) <= whole && AllAdmissible(p, whole)
    requires Scoped(p, bound, listed) && x in Refs(n, bound, listed)
    ensures Met(p, whole, x)
    decreases n, 2
  {
    assert !Fits(r, n) ==> Banned(Unsupported) in whole;
    RefMet(p, n, bound, listed, x);
    MetInWhole(p, Inside(n, listed), whole, x);
  }

  lemma {:induction false} RefMetWith(p: Policy, w: Option<With>, bound: set<string>, listed: set<string>, x: Ref)
    requires AllAdmissible(p, InWith(w, listed)) && Scoped(p, bound, listed) && x in RefsWith(w, bound, listed)
    ensures Met(p, InWith(w, listed), x)
    decreases w, 1
  {
    var v := w.value;
    var k :| 0 <= k < |v.ctes| && v.ctes[k].query.Some?
             && x in Refs(v.ctes[k].query.value, bound + NamesBefore(v, k), listed + CteNames(v));
    ScopedBelow(p, w, bound, listed);
    assert Occurrences(v.ctes[k].query.value, ResultSet, listed + CteNames(v)) <= InCtes(v, listed);
    RefMetPart(p, v.ctes[k].query.value, ResultSet, bound + NamesBefore(v, k), listed + CteNames(v), x, InCtes(v, listed));
  }

  lemma {:induction false} RefMetExpr(p: Policy, e: Expr, bound: set<string>, listed: set<string>, x: Ref)
    requires AllAdmissible(p, InExpr(e, listed)) && Scoped(p, bound, listed) && x in RefsExpr(e, bound, listed)
    ensures Met(p, InExpr(e, listed), x)
    decreases e, 1
  {
    match e {
      case Subquery(query, _) => RefMetPart(p, query.value, ResultSet, bound, listed, x, InExpr(e, listed));
      case FuncCall(_, args) => RefMetArgs(p, e, args, bound, listed, x);
      case Aggregate(_, args) => RefMetArgs(p, e, args, bound, listed, x);
      case Operation(_, args) => RefMetArgs(p, e, args, bound, listed, x);
      case _ =>
    }
  }

  lemma {:induction false} RefMetArgs(p: Policy, e: Expr, args: seq<Expr>, bound: set<string>, listed: set<string>, x: Ref)
    requires (e.FuncCall? && args == e.args) || (e.Aggregate? && args == e.args) || (e.Operation? && args == e.args)
    requires AllAdmissible(p, InExpr(e, listed)) && Scoped(p, bound, listed) && x in RefsExpr(e, bound, listed)
    ensures Met(p, InExpr(e, listed), x)
    decreases e, 0
  {
    var i :| 0 <= i < |args| && x in RefsExpr(args[i], bound, listed);
    assert InExpr(args[i], listed) <= InExpr(e, listed);
    RefMetExpr(p, args[i], bound, listed, x);
    MetInWhole(p, InExpr(args[i], listed), InExpr(e, listed), x);
  }

  // ---- results -------------------------------------------------------------

  // What the guard lists for a statement, and what evaluating it reads.
  function Listed(n: Node): set<string> {
    Tables(Occurrences(n, Root, {}))
  }

  function Reads(home: string, n: Node): set<TableId> {
    set x | x in Refs(n, {}, {}) + Hidden(n, {}, {}) && !x.bound :: IdOf(home, x)
  }

  // Every CTE named in a statement is defined before the place that names it.
  ghost predicate NamesEarlierOnly(n: Node) {
    forall x :: x in Refs(n, {}, {}) ==> (x.listed ==> x.bound)
  }

  // What the guard does not visit names, beside CTEs, only tables it listed anyway.
  ghost predicate HiddenIsListed(home: string, n: Node) {
    forall x :: x in Hidden(n, {}, {}) && !x.bound ==> IdOf(home, x).schema == home && x.name in Listed(n)
  }

  ghost predicate OneSchema(p: Policy, home: string) {
    forall s :: s in p.schemas ==> s == home
  }

  lemma ListedIsAllowed(p: Policy, n: Node)
    requires Permitted(p, n)
    ensures Listed(n) <= p.tables
  {
    forall t | t in Listed(n) ensures t in p.tables {
      var o :| o in Occurrences(n, Root, {}) && o.TableRef? && !IsCteRef(o) && o.name == t;
      assert Admissible(p, o);
    }
  }

  lemma RootMet(p: Policy, n: Node, x: Ref)
    requires Permitted(p, n) && x in Refs(n, {}, {})
    ensures Met(p, Occurrences(n, Root, {}), x)
  {
    RefMetPart(p, n, Root, {}, {}, x, Occurrences(n, Root, {}));
  }

  lemma UnlistedRead(p: Policy, home: string, n: Node, x: Ref)
    requires Permitted(p, n) && OneSchema(p, home) && Met(p, Occurrences(n, Root, {}), x) && !x.listed
    ensures x.name in Listed(n) && IdOf(home, x) == TableId(home, x.name)
  {
    var o :| o in Occurrences(n, Root, {}) && o.TableRef? && o.schema == x.schema && o.name == x.name && !IsCteRef(o);
    assert Admissible(p, o);
  }

  // An accepted statement reads only listed tables exactly when its CTEs are named only
  // after their definition and its unvisited expressions name only listed tables.
  lemma ReadsListedIff(p: Policy, home: string, n: Node)
    requires Permitted(p, n) && OneSchema(p, home)
    ensures (forall id :: id in Reads(home, n) ==> id.schema == home && id.name in Listed(n))
       <==> NamesEarlierOnly(n) && HiddenIsListed(home, n)
  {
    ListedIsAllowed(p, n);
    if NamesEarlierOnly(n) && HiddenIsListed(home, n) {
      forall id | id in Reads(home, n) ensures id.schema == home && id.name in Listed(n) {
        var x :| x in Refs(n, {}, {}) + Hidden(n, {}, {}) && !x.bound && IdOf(home, x) == id;
        if x in Refs(n, {}, {}) {
          RootMet(p, n, x);
          UnlistedRead(p, home, n, x);
        }
      }
    } else if !NamesEarlierOnly(n) {
      var x :| x in Refs(n, {}, {}) && x.listed && !x.bound;
      RootMet(p, n, x);
      assert IdOf(home, x) in Reads(home, n);
    } else {
      var x :| x in Hidden(n, {}, {}) && !x.bound && !(IdOf(home, x).schema == home && x.name in Listed(n));
      assert IdOf(home, x) in Reads(home, n);
    }
  }

  // Two databases that agree on the listed tables give the same result.
  lemma NonInterference(p: Policy, m: Meaning, db: Database, db': Database, n: Node)
    requires Permitted(p, n) && OneSchema(p, m.home) && NamesEarlierOnly(n) && HiddenIsListed(m.home, n)
    requires forall t :: t in Listed(n) ==> Lookup(db, TableId(m.home, t)) == Lookup(db', TableId(m.home, t))
    ensures Eval(m, db, n, map[], []) == Eval(m, db', n, map[], [])
  {
    forall x | x in Refs(n, {}, {}) && !x.bound ensures Lookup(db, IdOf(m.home, x)) == Lookup(db', IdOf(m.home, x)) {
      RootMet(p, n, x);
      UnlistedRead(p, m.home, n, x);
    }
    var none: map<string, Relation> := map[];
    assert none.Keys == {};
    SameRows(m, db, db', n, none, [], {});
  }

  // ---- the sibling scope lets a statement through that reads an unlisted table

  // WITH a AS (SELECT * FROM secret), secret AS (SELECT 1) SELECT * FROM a
  function FromSecret(): Node {
    Select(false, false, None, Some(TableName("", "secret")), [], [], "*", None)
  }

  function SelectOne(): Node {
    Select(false, false, None, None, [], [], "1", None)
  }

  function ForwardWith(): With {
    With(false, [Cte("a", false, Some(FromSecret())), Cte("secret", false, Some(SelectOne()))])
  }

  function ForwardStatement(): Node {
    Select(false, false, Some(ForwardWith()), Some(TableName("", "a")), [], [], "*", None)
  }

  // Every SELECT returns the rows of its FROM clause, a set operation its first branch, a
  // subquery its number of rows, and ordered rows are replaced by what they are ordered by.
  function PlainMeaning(home: string): Meaning {
    Meaning(home, (_, _) => Null, _ => Null, (_, _) => Null, (_, _) => Null, (_, _) => Null,
            (_, rows: Relation) => Number(|rows|),
            (_, rows: seq<(Row, seq<Value>)>) => seq(|rows|, i requires 0 <= i < |rows| => rows[i].0),
            (_, l, _, _) => l,
            (_, parts: seq<Relation>) => if parts == [] then [] else parts[0],
            (rows: seq<(Row, seq<Value>)>) => seq(|rows|, i requires 0 <= i < |rows| => rows[i].1))
  }

  lemma ForwardRefs()
    ensures Ref("", "secret", false, true) in Refs(ForwardStatement(), {}, {})
  {
    var n := ForwardStatement();
    var w := n.with.value;
    assert Ref("", "secret", false, true) in Refs(w.ctes[0].query.value, {} + NamesBefore(w, 0), {} + CteNames(w)) by {
      assert w.ctes[1].name == "secret";
    }
    assert Ref("", "secret", false, true) in RefsCtes(w, {}, {});
  }

  lemma QueryOccurrences(scope: set<string>)
    ensures Occurrences(FromSecret(), ResultSet, scope) == {TableRef("", "secret", scope)}
    ensures Occurrences(SelectOne(), ResultSet, scope) == {}
  {
    assert Inside(TableName("", "secret"), scope) == {TableRef("", "secret", scope)};
    assert InWith(None, scope) == {};
  }

  predicate Harmless(o: Occurrence) {
    (o.TableRef? && IsCteRef(o)) || o == CteDefinition("a") || o == CteDefinition("secret")
  }

  lemma WithOccurrences(o: Occurrence)
    requires o in InCtes(ForwardWith(), {})
    ensures Harmless(o)
  {
    hide Occurrences, FromSecret, SelectOne;
    var w := ForwardWith();
    assert w.ctes[1].name == "secret";
    QueryOccurrences({} + CteNames(w));
    assert "secret" in {} + CteNames(w);
  }

  lemma ForwardOccurrences(o: Occurrence)
    requires o in Occurrences(ForwardStatement(), Root, {})
    ensures Harmless(o)
  {
    hide Harmless, InCtes;
    var n := ForwardStatement();
    assert {} + CteNames(ForwardWith()) == CteNames(ForwardWith());
    if o in InCtes(ForwardWith(), {}) {
      WithOccurrences(o);
    } else {
      FromIsHarmless(o);
    }
  }

  lemma FromIsHarmless(o: Occurrence)
    requires o in Occurrences(TableName("", "a"), FromItem, CteNames(ForwardWith()))
    ensures Harmless(o)
  {
    assert ForwardWith().ctes[0].name == "a";
  }

  // Accepted whatever the allowed tables are (none named a or secret), lists nothing, and
  // yet its result is the table `secret`.
  lemma ForwardReadsUnlisted(p: Policy, home: string, r: Relation)
    requires "a" !in p.tables && "secret" !in p.tables
    ensures Permitted(p, ForwardStatement()) && Listed(ForwardStatement()) == {} && !NamesEarlierOnly(ForwardStatement())
    ensures Eval(PlainMeaning(home), map[TableId(home, "secret") := r], ForwardStatement(), map[], []) == r
  {
    hide Occurrences, Eval, ForwardStatement, Refs, PlainMeaning;
    ForwardRefs();
    forall o | o in Occurrences(ForwardStatement(), Root, {}) ensures Admissible(p, o) && (o.TableRef? ==> IsCteRef(o)) {
      ForwardOccurrences(o);
    }
    ForwardValue(home, r);
  }

  lemma ForwardValue(home: string, r: Relation)
    ensures Eval(PlainMeaning(home), map[TableId(home, "secret") := r], ForwardStatement(), map[], []) == r
  {
    var m, db, n := PlainMeaning(home), map[TableId(home, "secret") := r], ForwardStatement();
    ForwardBinds(home, r);
    hide PlainMeaning, EvalCtes, Eval;
    SelectAll(m, db, n, map[], [], home);
    assert |ForwardWith().ctes| == 2;
    CteValue(m, db, "a", EvalWith(m, db, n.with, map[], []));
  }

  lemma CteValue(m: Meaning, db: Database, name: string, env: map<string, Relation>)
    requires name in env
    ensures Eval(m, db, TableName("", name), env, []) == env[name]
  {
  }

  lemma ForwardBinds(home: string, r: Relation)
    ensures var env := EvalCtes(PlainMeaning(home), map[TableId(home, "secret") := r], ForwardWith(), 2, map[], []);
            "a" in env && env["a"] == r
  {
    var m, db, w := PlainMeaning(home), map[TableId(home, "secret") := r], ForwardWith();
    hide PlainMeaning;
    SelectAll(m, db, FromSecret(), map[], [], home);
    assert m.home == home by { HomeOf(home); }
    assert Eval(m, db, TableName("", "secret"), map[], []) == r;
    assert EvalCtes(m, db, w, 0, map[], []) == map[];
    assert EvalCtes(m, db, w, 1, map[], []) == map["a" := r];
  }

  lemma HomeOf(home: string)
    ensures PlainMeaning(home).home == home
  {
  }

  // SELECT * FROM t is t.
  lemma SelectAll(m: Meaning, db: Database, n: Node, env: map<string, Relation>, ctx: seq<Row>, home: string)
    requires m == PlainMeaning(home) && n.Select? && n.from.Some? && n.limit == None
    ensures Eval(m, db, n, env, ctx) == Eval(m, db, n.from.value, EvalWith(m, db, n.with, env, ctx), ctx)
  {
    var inner := EvalWith(m, db, n.with, env, ctx);
    var rows := Eval(m, db, n.from.value, inner, ctx);
    var pairs := seq(|rows|, i requires 0 <= i < |rows| =>
      (rows[i], Clauses(m, db, n, inner, [rows[i]] + ctx) + Unvisited(m, db, n, inner, [rows[i]] + ctx)));
    assert m.select(n.shape, pairs) == rows;
  }

  // ---- so does an expression the guard does not visit -----------------------

  // SELECT a FROM t UNION SELECT a FROM t ORDER BY (SELECT b FROM secret)
  function FromT(): Node {
    Select(false, false, None, Some(TableName("", "t")), [Column("a")], [], "a", None)
  }

  function Union(): Node {
    SelectList(None, [FromT(), FromT()], [], "UNION")
  }

  function OrderExpr(): Expr {
    Subquery(Some(FromSecret()), "scalar")
  }

  function OrderedUnion(): Node {
    SetOpr(None, Some(Union()), [OrderExpr()], None)
  }

  lemma FromTOccurrences()
    ensures Occurrences(FromT(), Branch, {}) == {TableRef("", "t", {})}
  {
    assert InExpr(Column("a"), {}) == {};
    assert Inside(TableName("", "t"), {}) == {TableRef("", "t", {})};
  }

  lemma ListOccurrences(o: Occurrence)
    ensures o in Inside(Union(), {}) <==> o == TableRef("", "t", {})
  {
    FromTOccurrences();
    hide FromT, Occurrences;
    var n := Union();
    assert n.branches == [FromT(), FromT()] && n.branches[0] == FromT();
    assert InWith(None, {}) == {};
    if o == TableRef("", "t", {}) {
      assert |n.branches| == 2 && o in Occurrences(n.branches[0], Branch, ScopeBelow(n.with, {}));
      ListMember(n, 0, o);
    }
  }

  lemma ListMember(n: Node, i: nat, o: Occurrence)
    requires n.SelectList? && i < |n.branches| && o in Occurrences(n.branches[i], Branch, ScopeBelow(n.with, {}))
    ensures o in Inside(n, {})
  {
  }

  lemma UnionOccurrences()
    ensures Occurrences(OrderedUnion(), Root, {}) == {TableRef("", "t", {})}
  {
    hide Union;
    assert Union().SelectList? by { UnionIsList(); }
    assert InWith(None, {}) == {};
    forall o ensures o in Inside(Union(), {}) <==> o == TableRef("", "t", {}) {
      ListOccurrences(o);
    }
  }

  lemma UnionIsList()
    ensures Union().SelectList?
  {
  }

  lemma UnionRefs(x: Ref)
    requires x in Refs(OrderedUnion(), {}, {})
    ensures !x.listed && !x.bound
  {
    hide FromT;
    FromTRefs(x);
  }

  lemma FromTRefs(x: Ref)
    ensures x in Refs(FromT(), {}, {}) ==> !x.listed && !x.bound
  {
    assert RefsExpr(Column("a"), {}, {}) == {};
  }

  lemma OrderRefs()
    ensures Ref("", "secret", false, false) in Hidden(OrderedUnion(), {}, {})
  {
    assert Ref("", "secret", false, false) in Refs(FromSecret(), {}, {});
    var unvisited := [OrderExpr()];
    assert Ref("", "secret", false, false) in RefsExpr(unvisited[0], {}, {});
  }

  // Accepted, listing t alone, with every name defined before its use; yet its result
  // tells how many rows `secret` has.
  lemma UnvisitedReadsUnlisted(p: Policy, home: string, row: Row, r: Relation)
    requires "t" in p.tables && "secret" !in p.tables
    ensures Permitted(p, OrderedUnion()) && Listed(OrderedUnion()) == {"t"}
    ensures NamesEarlierOnly(OrderedUnion()) && !HiddenIsListed(home, OrderedUnion())
    ensures Eval(PlainMeaning(home), map[TableId(home, "t") := [row], TableId(home, "secret") := r], OrderedUnion(), map[], [])
              == [[Number(|r|)]]
  {
    hide Occurrences, Hidden, Eval, OrderedUnion, Refs, PlainMeaning;
    UnionOccurrences();
    OrderRefs();
    UnionValue(home, row, r);
    forall x | x in Refs(OrderedUnion(), {}, {}) ensures x.listed ==> x.bound {
      UnionRefs(x);
    }
    assert Listed(OrderedUnion()) == {"t"};
  }

  lemma TableValue(m: Meaning, db: Database, name: string, ctx: seq<Row>)
    ensures Eval(m, db, TableName("", name), map[], ctx) == Lookup(db, TableId(m.home, name))
  {
  }

  lemma FromTableValue(m: Meaning, db: Database, home: string, n: Node, name: string, ctx: seq<Row>)
    requires m == PlainMeaning(home) && n.Select? && n.with == None && n.from == Some(TableName("", name)) && n.limit == None
    ensures Eval(m, db, n, map[], ctx) == Lookup(db, TableId(home, name))
  {
    SelectAll(m, db, n, map[], ctx, home);
    TableValue(m, db, name, ctx);
    HomeOf(home);
    hide PlainMeaning;
    assert EvalWith(m, db, n.with, map[], ctx) == map[];
  }

  lemma UnionRows(m: Meaning, db: Database, home: string)
    requires m == PlainMeaning(home)
    ensures Eval(m, db, Union(), map[], []) == Lookup(db, TableId(home, "t"))
  {
    FromTableValue(m, db, home, FromT(), "t", []);
    hide FromT;
    var branches := [FromT(), FromT()];
    var parts := seq(|branches|, i requires 0 <= i < |branches| => Eval(m, db, branches[i], map[], []));
    assert parts[0] == Eval(m, db, FromT(), map[], []);
    assert m.setOperation("UNION", parts) == parts[0];
  }

  lemma OrderValue(m: Meaning, db: Database, home: string, ctx: seq<Row>)
    requires m == PlainMeaning(home)
    ensures EvalExpr(m, db, OrderExpr(), map[], ctx) == Number(|Lookup(db, TableId(home, "secret"))|)
  {
    FromTableValue(m, db, home, FromSecret(), "secret", ctx);
    hide Eval, FromSecret;
  }

  lemma UnionValue(home: string, row: Row, r: Relation)
    ensures Eval(PlainMeaning(home), map[TableId(home, "t") := [row], TableId(home, "secret") := r], OrderedUnion(), map[], [])
              == [[Number(|r|)]]
  {
    var m, db, n := PlainMeaning(home), map[TableId(home, "t") := [row], TableId(home, "secret") := r], OrderedUnion();
    UnionRows(m, db, home);
    OrderValue(m, db, home, [row] + []);
    hide Union, OrderExpr;
    assert Unvisited(m, db, n, map[], [row] + []) == [Number(|r|)];
    var pairs := seq(1, i requires 0 <= i < 1 => (row, Unvisited(m, db, n, map[], [row] + [])));
    assert m.arrange(pairs) == [[Number(|r|)]];
    hide PlainMeaning;
    OrderedOne(m, db, n, row);
    assert Eval(m, db, n, map[], []) == Ordered(m, db, n, [row], map[], []);
  }

  lemma OrderedOne(m: Meaning, db: Database, n: Node, row: Row)
    requires n.SetOpr? && n.unvisited != []
    ensures Ordered(m, db, n, [row], map[], []) ==
              m.arrange(seq(1, i requires 0 <= i < 1 => (row, Unvisited(m, db, n, map[], [row] + []))))
  {
    hide Unvisited;
    var rows := [row];
    assert seq(|rows|, i requires 0 <= i < |rows| => (rows[i], Unvisited(m, db, n, map[], [rows[i]] + [])))
        == seq(1, i requires 0 <= i < 1 => (row, Unvisited(m, db, n, map[], [row] + [])));
  }
}
