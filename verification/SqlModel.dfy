/** A SELECT language with joins, derived tables, correlated subqueries, grouping and set
    operations, and what a query returns. Table references are numbered nodes beside the
    tree, so that a rewrite can change the nodes and leave the tree alone. */
module SqlModel {
  import opened Base

  datatype Value = Null | IntV(i: int) | TextV(s: string) | BoolV(b: bool)

  type Row = seq<Value>

  /** The tables of a scope: what each is called and its columns. */
  type Schema = seq<(string, seq<string>)>

  datatype Relation = Relation(cols: seq<string>, rows: seq<Row>)

  // ---- Syntax ----

  /** One table reference of a parsed query. */
  datatype TableRef = TableRef(db: string, name: string, quoted: bool, alias: Option<string>)

  datatype Operator = Eq | Less | And | Or | Plus | Times

  datatype Aggregate = Count | Sum | Max_

  datatype Expr =
    | Lit(v: Value)
    | Col(qual: Option<string>, name: string)
    | Op(op: Operator, left: Expr, right: Expr)
    | Not(e: Expr)
    | IsNull(e: Expr)
    | Agg(fn: Aggregate, arg: Expr)
    | Scalar(q: Query)
    | Exists(q: Query)
    | InQuery(e: Expr, q: Query)
    | RunText(tables: seq<TableRef>, q: Query)  // a function that runs a statement given to it as text

  datatype Exprs = NoExprs | MoreExprs(head: Expr, tail: Exprs)

  /** The SELECT list. */
  datatype Items =
    | NoItems
    | Column(e: Expr, name: string, rest: Items)
    | Star(rest: Items)
    | QualifiedStar(alias: string, rest: Items)

  datatype From =
    | Nothing
    | Base(node: nat)
    | Derived(q: Query, alias: string)
    | Join(l: From, r: From, outer_: bool, on: Expr)

  /** `grouped` is set by GROUP BY, by HAVING and by any aggregate. */
  datatype Query =
    | Select(items: Items, from: From, where_: Expr, grouped: bool, groupBy: Exprs, having: Expr,
             distinct: bool, orderBy: Exprs, limit: Option<nat>)
    | Union(l: Query, r: Query, all: bool)

  // ---- Name scopes ----

  /** One table of the current row: its name in the query, its columns and this row's values. */
  datatype Binding = Binding(alias: string, cols: seq<string>, vals: Row)

  type Frame = seq<Binding>

  /** What FROM yields: which names are in scope, and the rows. */
  datatype Frames = Frames(schema: Schema, frames: seq<Frame>)

  /** What a table node stands for: its name in scope and its contents. */
  datatype Source = Source(alias: string, rel: Relation)

  type Database = map<string, Relation>

  /** The sources of all nodes, None where the name means nothing; and the database that statements run
      from within an expression see. */
  datatype Sources = Sources(nodes: seq<Option<Source>>, raw: Database)

  function LowerChar(c: char): char {
    if 'A' <= c <= 'Z' then (c as int + 32) as char else c
  }

  function Lower(s: string): string { seq(|s|, i requires 0 <= i < |s| => LowerChar(s[i])) }

  /** SQL folds names to lower case unless they are quoted. */
  function Folded(t: TableRef): string { if t.quoted then t.name else Lower(t.name) }

  function Bind(db: Database, t: TableRef): Option<Source> {
    if t.db != "" || Folded(t) !in db then None
    else Some(Source(if t.alias.Some? then t.alias.value else Folded(t), db[Folded(t)]))
  }

  function NodesOf(db: Database, ts: seq<TableRef>): seq<Option<Source>> {
    seq(|ts|, i requires 0 <= i < |ts| => Bind(db, ts[i]))
  }

  function ColumnHits(cols: seq<string>, vals: Row, name: string): Row {
    if cols == [] || vals == [] then []
    else (if cols[0] == name then [vals[0]] else []) + ColumnHits(cols[1..], vals[1..], name)
  }

  /** Every value in the frame the reference could mean. */
  function Hits(f: Frame, qual: Option<string>, name: string): Row {
    if f == [] then []
    else
      (if qual.None? || qual.value == f[0].alias then ColumnHits(f[0].cols, f[0].vals, name) else [])
        + Hits(f[1..], qual, name)
  }

  predicate HasAlias(f: Frame, alias: string) { exists i :: 0 <= i < |f| && f[i].alias == alias }

  /** Innermost scope first; ambiguous and unknown references are errors. */
  function Resolve(scopes: seq<Frame>, qual: Option<string>, name: string): Option<Value> {
    if scopes == [] then None else
    var hits := Hits(scopes[0], qual, name);
    if |hits| == 1 then Some(hits[0])
    else if |hits| > 1 then None
    else if qual.Some? && HasAlias(scopes[0], qual.value) then None
    else Resolve(scopes[1..], qual, name)
  }

  // ---- Values ----

  /** Three-valued logic: NULL is unknown. */
  function Apply(op: Operator, a: Value, b: Value): Option<Value> {
    match op
    case And =>
      if a == BoolV(false) || b == BoolV(false) then Some(BoolV(false))
      else if a == Null || b == Null then Some(Null)
      else if a.BoolV? && b.BoolV? then Some(BoolV(true)) else None
    case Or =>
      if a == BoolV(true) || b == BoolV(true) then Some(BoolV(true))
      else if a == Null || b == Null then Some(Null)
      else if a.BoolV? && b.BoolV? then Some(BoolV(false)) else None
    case Eq => if a == Null || b == Null then Some(Null) else Some(BoolV(a == b))
    case Less =>
      if a == Null || b == Null then Some(Null)
      else if a.IntV? && b.IntV? then Some(BoolV(a.i < b.i)) else None
    case Plus =>
      if a == Null || b == Null then Some(Null)
      else if a.IntV? && b.IntV? then Some(IntV(a.i + b.i)) else None
    case Times =>
      if a == Null || b == Null then Some(Null)
      else if a.IntV? && b.IntV? then Some(IntV(a.i * b.i)) else None
  }

  function Negate(a: Value): Option<Value> {
    match a
    case Null => Some(Null)
    case BoolV(b) => Some(BoolV(!b))
    case _ => None
  }

  /** NULLs are skipped; an empty sum or maximum is NULL. */
  function Fold(fn: Aggregate, vals: Row): Option<Value> {
    if vals == [] then Some(if fn == Count then IntV(0) else Null) else
    var rest :- Fold(fn, vals[1..]);
    match vals[0]
    case Null => Some(rest)
    case IntV(i) =>
      Some(match fn
           case Count => if rest.IntV? then IntV(rest.i + 1) else rest
           case Sum => if rest.IntV? then IntV(rest.i + i) else IntV(i)
           case Max_ => if rest.IntV? then IntV(Max(rest.i, i)) else IntV(i))
    case _ => if fn == Count && rest.IntV? then Some(IntV(rest.i + 1)) else None
  }

  function Member(v: Value, vals: Row): Value {
    if vals == [] then BoolV(false)
    else if v != Null && v == vals[0] then BoolV(true)
    else
      var rest := Member(v, vals[1..]);
      if rest == BoolV(true) then rest else if v == Null || vals[0] == Null then Null else rest
  }

  /** The value of a relation that has at most one row. */
  function OnlyValue(rel: Relation): Option<Value> {
    if rel.rows == [] then Some(Null)
    else if |rel.rows| > 1 || |rel.rows[0]| != 1 then None
    else Some(rel.rows[0][0])
  }

  function FirstColumn(rows: seq<Row>): Option<Row> {
    if rows == [] then Some([])
    else if |rows[0]| != 1 then None
    else
      var rest :- FirstColumn(rows[1..]);
      Some(rows[0] + rest)
  }

  function Dedupe(rows: seq<Row>): seq<Row> {
    if rows == [] then [] else
    var front := Dedupe(rows[..|rows| - 1]);
    if rows[|rows| - 1] in front then front else front + [rows[|rows| - 1]]
  }

  function Before(a: Row, b: Row): bool {
    if a == [] || b == [] then false
    else if a[0].IntV? && b[0].IntV? && a[0].i != b[0].i then a[0].i < b[0].i
    else Before(a[1..], b[1..])
  }

  /** Rows paired with their ORDER BY keys, inserted stably. */
  function InsertRow(keyed: (Row, Row), sorted: seq<(Row, Row)>): seq<(Row, Row)> {
    if sorted == [] || !Before(sorted[0].0, keyed.0) then [keyed] + sorted
    else [sorted[0]] + InsertRow(keyed, sorted[1..])
  }

  function SortRows(keyed: seq<(Row, Row)>): seq<(Row, Row)> {
    if keyed == [] then [] else InsertRow(keyed[0], SortRows(keyed[1..]))
  }

  function Rows(keyed: seq<(Row, Row)>): seq<Row> {
    seq(|keyed|, i requires 0 <= i < |keyed| => keyed[i].1)
  }

  /** ORDER BY, DISTINCT and LIMIT. */
  function Finish(keyed: seq<(Row, Row)>, distinct: bool, limit: Option<nat>): seq<Row> {
    var rows := Rows(SortRows(keyed));
    var unique := if distinct then Dedupe(rows) else rows;
    if limit.Some? && limit.value < |unique| then unique[..limit.value] else unique
  }

  // ---- Frames ----

  function BindRows(alias: string, cols: seq<string>, rows: seq<Row>): seq<Frame> {
    seq(|rows|, i requires 0 <= i < |rows| => [Binding(alias, cols, rows[i])])
  }

  function NullFrame(schema: Schema): Frame {
    seq(|schema|, i requires 0 <= i < |schema| => Binding(schema[i].0, schema[i].1, seq(|schema[i].1|, j => Null)))
  }

  function Pairings(l: Frame, rs: seq<Frame>): seq<Frame> {
    seq(|rs|, i requires 0 <= i < |rs| => l + rs[i])
  }

  predicate ShareAlias(a: Schema, b: Schema) {
    exists i, j :: 0 <= i < |a| && 0 <= j < |b| && a[i].0 == b[j].0
  }

  function AllCols(schema: Schema): seq<string> {
    if schema == [] then [] else schema[0].1 + AllCols(schema[1..])
  }

  function AllVals(f: Frame): Row {
    if f == [] then [] else f[0].vals + AllVals(f[1..])
  }

  /** The columns of the tables called `alias`; None if there is none. */
  function AliasCols(schema: Schema, alias: string): Option<seq<string>> {
    if schema == [] then None
    else if schema[0].0 == alias then Some(schema[0].1)
    else AliasCols(schema[1..], alias)
  }

  function AliasVals(f: Frame, alias: string): Option<Row> {
    if f == [] then None
    else if f[0].alias == alias then Some(f[0].vals)
    else AliasVals(f[1..], alias)
  }

  function ItemCols(items: Items, schema: Schema): Option<seq<string>> {
    match items
    case NoItems => Some([])
    case Column(_, name, rest) => var more :- ItemCols(rest, schema); Some([name] + more)
    case Star(rest) => var more :- ItemCols(rest, schema); Some(AllCols(schema) + more)
    case QualifiedStar(alias, rest) =>
      var cols :- AliasCols(schema, alias);
      var more :- ItemCols(rest, schema);
      Some(cols + more)
  }

  /** Rows that go into one output row: the one whose columns are visible, and the group aggregates range over. */
  datatype Context = Context(current: Frame, group: seq<Frame>)

  function Solo(frames: seq<Frame>): seq<Context> {
    seq(|frames|, i requires 0 <= i < |frames| => Context(frames[i], [frames[i]]))
  }

  /** Appends a frame to the group with its key, or opens one. */
  function AddToGroup(groups: seq<(Row, seq<Frame>)>, key: Row, f: Frame): seq<(Row, seq<Frame>)> {
    if groups == [] then [(key, [f])]
    else if groups[0].0 == key then [(key, groups[0].1 + [f])] + groups[1..]
    else [groups[0]] + AddToGroup(groups[1..], key, f)
  }

  function GroupContexts(groups: seq<(Row, seq<Frame>)>, blank: Frame): seq<Context> {
    seq(|groups|, i requires 0 <= i < |groups| =>
      Context(if groups[i].1 == [] then blank else groups[i].1[0], groups[i].1))
  }

  // ---- Meaning ----

  /** The value of an expression where `scopes[0]` is the current row and the rest are the enclosing queries' rows. */
  function EvalExpr(src: Sources, e: Expr, scopes: seq<Frame>, group: seq<Frame>): Option<Value>
    requires scopes != []
    decreases e, 0, 0
  {
    match e
    case Lit(v) => Some(v)
    case Col(qual, name) => Resolve(scopes, qual, name)
    case Op(op, l, r) =>
      var a :- EvalExpr(src, l, scopes, group);
      var b :- EvalExpr(src, r, scopes, group);
      Apply(op, a, b)
    case Not(x) => var a :- EvalExpr(src, x, scopes, group); Negate(a)
    case IsNull(x) => var a :- EvalExpr(src, x, scopes, group); Some(BoolV(a == Null))
    case Agg(fn, x) => var vals :- EvalOver(src, x, group, scopes[1..]); Fold(fn, vals)
    case Scalar(q) => var rel :- EvalQuery(src, q, scopes); OnlyValue(rel)
    case RunText(ts, q) =>
      var rel :- EvalQuery(Sources(NodesOf(src.raw, ts), src.raw), q, []);
      OnlyValue(rel)
    case Exists(q) => var rel :- EvalQuery(src, q, scopes); Some(BoolV(rel.rows != []))
    case InQuery(x, q) =>
      var a :- EvalExpr(src, x, scopes, group);
      var rel :- EvalQuery(src, q, scopes);
      var vals :- FirstColumn(rel.rows);
      Some(Member(a, vals))
  }

  /** An aggregate's argument, once per row of the group. */
  function EvalOver(src: Sources, e: Expr, group: seq<Frame>, outer: seq<Frame>): Option<Row>
    decreases e, 1, |group|
  {
    if group == [] then Some([]) else
    var v :- EvalExpr(src, e, [group[0]] + outer, [group[0]]);
    var rest :- EvalOver(src, e, group[1..], outer);
    Some([v] + rest)
  }

  /** The rows for which a condition is true. */
  function Filter(src: Sources, e: Expr, frames: seq<Frame>, outer: seq<Frame>): Option<seq<Frame>>
    decreases e, 1, |frames|
  {
    if frames == [] then Some([]) else
    var v :- EvalExpr(src, e, [frames[0]] + outer, [frames[0]]);
    var rest :- Filter(src, e, frames[1..], outer);
    Some((if v == BoolV(true) then [frames[0]] else []) + rest)
  }

  function JoinRows(
      src: Sources, on: Expr, outer_: bool, ls: seq<Frame>, r: Frames, outer: seq<Frame>): Option<seq<Frame>>
    decreases on, 2, |ls|
  {
    if ls == [] then Some([]) else
    var matches :- Filter(src, on, Pairings(ls[0], r.frames), outer);
    var rest :- JoinRows(src, on, outer_, ls[1..], r, outer);
    Some((if matches == [] && outer_ then [ls[0] + NullFrame(r.schema)] else matches) + rest)
  }

  function EvalFrom(src: Sources, f: From, outer: seq<Frame>): Option<Frames>
    decreases f, 0, 0
  {
    match f
    case Nothing => Some(Frames([], [[]]))
    case Base(node) =>
      if node >= |src.nodes| then None else
      var s :- src.nodes[node];
      Some(Frames([(s.alias, s.rel.cols)], BindRows(s.alias, s.rel.cols, s.rel.rows)))
    case Derived(q, alias) =>
      var rel :- EvalQuery(src, q, outer);
      Some(Frames([(alias, rel.cols)], BindRows(alias, rel.cols, rel.rows)))
    case Join(l, r, outer_, on) =>
      var a :- EvalFrom(src, l, outer);
      var b :- EvalFrom(src, r, outer);
      if ShareAlias(a.schema, b.schema) then None else
      var frames :- JoinRows(src, on, outer_, a.frames, b, outer);
      Some(Frames(a.schema + b.schema, frames))
  }

  function EvalKeys(src: Sources, keys: Exprs, scopes: seq<Frame>, group: seq<Frame>): Option<Row>
    requires scopes != []
    decreases keys, 0, 0
  {
    match keys
    case NoExprs => Some([])
    case MoreExprs(e, rest) =>
      var v :- EvalExpr(src, e, scopes, group);
      var more :- EvalKeys(src, rest, scopes, group);
      Some([v] + more)
  }

  function GroupRows(src: Sources, keys: Exprs, frames: seq<Frame>, outer: seq<Frame>): Option<seq<(Row, seq<Frame>)>>
    decreases keys, 1, |frames|
  {
    if frames == [] then Some([]) else
    var last := frames[|frames| - 1];
    var groups :- GroupRows(src, keys, frames[..|frames| - 1], outer);
    var key :- EvalKeys(src, keys, [last] + outer, [last]);
    Some(AddToGroup(groups, key, last))
  }

  /** HAVING. */
  function Keep(src: Sources, e: Expr, cs: seq<Context>, outer: seq<Frame>): Option<seq<Context>>
    decreases e, 1, |cs|
  {
    if cs == [] then Some([]) else
    var v :- EvalExpr(src, e, [cs[0].current] + outer, cs[0].group);
    var rest :- Keep(src, e, cs[1..], outer);
    Some((if v == BoolV(true) then [cs[0]] else []) + rest)
  }

  function ProjectRow(src: Sources, items: Items, c: Context, outer: seq<Frame>): Option<Row>
    decreases items, 0, 0
  {
    match items
    case NoItems => Some([])
    case Column(e, _, rest) =>
      var v :- EvalExpr(src, e, [c.current] + outer, c.group);
      var more :- ProjectRow(src, rest, c, outer);
      Some([v] + more)
    case Star(rest) => var more :- ProjectRow(src, rest, c, outer); Some(AllVals(c.current) + more)
    case QualifiedStar(alias, rest) =>
      var vals :- AliasVals(c.current, alias);
      var more :- ProjectRow(src, rest, c, outer);
      Some(vals + more)
  }

  function ProjectAll(src: Sources, items: Items, cs: seq<Context>, outer: seq<Frame>): Option<seq<Row>>
    decreases items, 1, |cs|
  {
    if cs == [] then Some([]) else
    var row :- ProjectRow(src, items, cs[0], outer);
    var rest :- ProjectAll(src, items, cs[1..], outer);
    Some([row] + rest)
  }

  function SortKeys(src: Sources, keys: Exprs, cs: seq<Context>, outer: seq<Frame>): (r: Option<seq<Row>>)
    ensures r.Some? ==> |r.value| == |cs|
    decreases keys, 1, |cs|
  {
    if cs == [] then Some([]) else
    var key :- EvalKeys(src, keys, [cs[0].current] + outer, cs[0].group);
    var rest :- SortKeys(src, keys, cs[1..], outer);
    Some([key] + rest)
  }

  function Zip(keys: seq<Row>, rows: seq<Row>): seq<(Row, Row)> {
    if keys == [] || rows == [] then [] else [(keys[0], rows[0])] + Zip(keys[1..], rows[1..])
  }

  /** The groups of a grouped query; without keys everything is one group, even if it is empty. */
  function Contexts(src: Sources, keys: Exprs, grouped: bool, f: Frames, outer: seq<Frame>): Option<seq<Context>>
    decreases keys, 2, 0
  {
    if !grouped then Some(Solo(f.frames))
    else if keys.NoExprs? then Some(GroupContexts([([], f.frames)], NullFrame(f.schema)))
    else
      var groups :- GroupRows(src, keys, f.frames, outer);
      Some(GroupContexts(groups, NullFrame(f.schema)))
  }

  function EvalQuery(src: Sources, q: Query, outer: seq<Frame>): Option<Relation>
    decreases q, 0, 0
  {
    match q
    case Union(l, r, all) =>
      var a :- EvalQuery(src, l, outer);
      var b :- EvalQuery(src, r, outer);
      if |a.cols| != |b.cols| then None
      else Some(Relation(a.cols, if all then a.rows + b.rows else Dedupe(a.rows + b.rows)))
    case Select(items, from, where_, grouped, groupBy, having, distinct, orderBy, limit) =>
      var all :- EvalFrom(src, from, outer);
      var frames :- Filter(src, where_, all.frames, outer);
      var contexts :- Contexts(src, groupBy, grouped, Frames(all.schema, frames), outer);
      var kept :- Keep(src, having, contexts, outer);
      var rows :- ProjectAll(src, items, kept, outer);
      var keys :- SortKeys(src, orderBy, kept, outer);
      var cols :- ItemCols(items, all.schema);
      Some(Relation(cols, Finish(Zip(keys, rows), distinct, limit)))
  }

  // ---- Names are resolved, and grouping is checked, before any row is read ----

  function ColumnCount(cols: seq<string>, name: string): nat {
    if cols == [] then 0 else (if cols[0] == name then 1 else 0) + ColumnCount(cols[1..], name)
  }

  /** How many columns of the scope the reference could mean. */
  function NameCount(sc: Schema, qual: Option<string>, name: string): nat {
    if sc == [] then 0
    else
      (if qual.None? || qual.value == sc[0].0 then ColumnCount(sc[0].1, name) else 0) + NameCount(sc[1..], qual, name)
  }

  predicate InSchema(sc: Schema, alias: string) { exists i :: 0 <= i < |sc| && sc[i].0 == alias }

  function ColumnAt(cols: seq<string>, name: string): nat {
    if cols == [] || cols[0] == name then 0 else 1 + ColumnAt(cols[1..], name)
  }

  /** A column of a scope: which table, and which column of it. */
  type Spot = (nat, nat)

  /** The first column the reference could mean. */
  function SpotOf(sc: Schema, qual: Option<string>, name: string): Spot {
    if sc == [] || ((qual.None? || qual.value == sc[0].0) && ColumnCount(sc[0].1, name) > 0) then
      (0, if sc == [] then 0 else ColumnAt(sc[0].1, name))
    else
      var rest := SpotOf(sc[1..], qual, name);
      (rest.0 + 1, rest.1)
  }

  /** What may be used of a query's tables: anything, or, once its rows are grouped and outside aggregates, the
      expressions it is grouped by and the columns these determine. */
  datatype Rule = Anything | Grouped(spots: set<Spot>, items: Exprs)

  datatype Scope = Scope(sc: Schema, rule: Rule)

  predicate Listed(e: Expr, items: Exprs) { items.MoreExprs? && (e == items.head || Listed(e, items.tail)) }

  predicate Usable(rule: Rule, spot: Spot) { rule.Grouped? ==> spot in rule.spots }

  /** The rules of Resolve, without the values. */
  predicate Resolvable(scopes: seq<Scope>, qual: Option<string>, name: string) {
    if scopes == [] then false else
    var n := NameCount(scopes[0].sc, qual, name);
    if n == 1 then Usable(scopes[0].rule, SpotOf(scopes[0].sc, qual, name))
    else if n > 1 then false
    else if qual.Some? && InSchema(scopes[0].sc, qual.value) then false
    else Resolvable(scopes[1..], qual, name)
  }

  /** The key column of each table node, as far as one is declared. */
  type KeyColumns = seq<Option<string>>

  function FromKeys(keys: KeyColumns, f: From): seq<Option<string>> {
    match f
    case Nothing => []
    case Base(node) => [if node < |keys| then keys[node] else None]
    case Derived(_, _) => [None]
    case Join(l, r, _, _) => FromKeys(keys, l) + FromKeys(keys, r)
  }

  /** The columns among the GROUP BY items. */
  function ItemSpots(sc: Schema, items: Exprs): set<Spot> {
    match items
    case NoExprs => {}
    case MoreExprs(e, rest) =>
      (if e.Col? && NameCount(sc, e.qual, e.name) == 1 then {SpotOf(sc, e.qual, e.name)} else {}) + ItemSpots(sc, rest)
  }

  /** Grouping by the key of a table determines its other columns. */
  function Determined(sc: Schema, keys: seq<Option<string>>, spots: set<Spot>): set<Spot> {
    spots + set i, j | 0 <= i < |sc| && 0 <= j < |sc[i].1| && KeyIn(sc, keys, spots, i) :: (i, j)
  }

  predicate KeyIn(sc: Schema, keys: seq<Option<string>>, spots: set<Spot>, i: nat)
    requires i < |sc|
  {
    i < |keys| && keys[i].Some? && (i, ColumnAt(sc[i].1, keys[i].value)) in spots
  }

  function RuleOf(sc: Schema, keys: seq<Option<string>>, grouped: bool, groupBy: Exprs): Rule {
    if grouped then Grouped(Determined(sc, keys, ItemSpots(sc, groupBy)), groupBy) else Anything
  }

  /** Every column of the tables called `alias`, or of all, may be used. */
  predicate AllUsable(scope: Scope, alias: Option<string>) {
    forall i, j :: 0 <= i < |scope.sc| && 0 <= j < |scope.sc[i].1| && (alias.Some? ==> scope.sc[i].0 == alias.value) ==>
      Usable(scope.rule, (i, j))
  }

  predicate ExprNames(src: Sources, keys: KeyColumns, e: Expr, scopes: seq<Scope>)
    requires scopes != []
    decreases e
  {
    || (scopes[0].rule.Grouped? && Listed(e, scopes[0].rule.items))
    || match e
       case Lit(_) => true
       case Col(qual, name) => Resolvable(scopes, qual, name)
       case Op(_, l, r) => ExprNames(src, keys, l, scopes) && ExprNames(src, keys, r, scopes)
       case Not(x) => ExprNames(src, keys, x, scopes)
       case IsNull(x) => ExprNames(src, keys, x, scopes)
       case Agg(_, x) => ExprNames(src, keys, x, [Scope(scopes[0].sc, Anything)] + scopes[1..])
       case Scalar(q) => var cols := QueryCols(src, keys, q, scopes); cols.Some? && |cols.value| == 1
       case Exists(q) => QueryCols(src, keys, q, scopes).Some?
       case InQuery(x, q) =>
         var cols := QueryCols(src, keys, q, scopes);
         ExprNames(src, keys, x, scopes) && cols.Some? && |cols.value| == 1
       case RunText(_, _) => true
  }

  predicate ExprsNames(src: Sources, keys: KeyColumns, es: Exprs, scopes: seq<Scope>)
    requires scopes != []
    decreases es
  {
    es.MoreExprs? ==> ExprNames(src, keys, es.head, scopes) && ExprsNames(src, keys, es.tail, scopes)
  }

  predicate ItemsNames(src: Sources, keys: KeyColumns, items: Items, scope: Scope, outer: seq<Scope>)
    decreases items
  {
    match items
    case NoItems => true
    case Column(e, _, rest) =>
      ExprNames(src, keys, e, [scope] + outer) && ItemsNames(src, keys, rest, scope, outer)
    case Star(rest) => AllUsable(scope, None) && ItemsNames(src, keys, rest, scope, outer)
    case QualifiedStar(alias, rest) =>
      InSchema(scope.sc, alias) && AllUsable(scope, Some(alias)) && ItemsNames(src, keys, rest, scope, outer)
  }

  function FromSchema(src: Sources, keys: KeyColumns, f: From, outer: seq<Scope>): Option<Schema>
    decreases f
  {
    match f
    case Nothing => Some([])
    case Base(node) =>
      if node >= |src.nodes| then None else
      var s :- src.nodes[node];
      Some([(s.alias, s.rel.cols)])
    case Derived(q, alias) => var cols :- QueryCols(src, keys, q, outer); Some([(alias, cols)])
    case Join(l, r, _, on) =>
      var a :- FromSchema(src, keys, l, outer);
      var b :- FromSchema(src, keys, r, outer);
      if ShareAlias(a, b) || !ExprNames(src, keys, on, [Scope(a + b, Anything)] + outer) then None else Some(a + b)
  }

  /** The columns of the result, or None if the statement is refused whatever the rows: some reference anywhere in it
      has no meaning or more than one, or uses a column that its grouping does not determine. */
  function QueryCols(src: Sources, keys: KeyColumns, q: Query, outer: seq<Scope>): Option<seq<string>>
    decreases q
  {
    match q
    case Union(l, r, _) =>
      var a :- QueryCols(src, keys, l, outer);
      var b :- QueryCols(src, keys, r, outer);
      if |a| != |b| then None else Some(a)
    case Select(items, from, where_, grouped, groupBy, having, _, orderBy, _) =>
      var sc :- FromSchema(src, keys, from, outer);
      var rows, out := Scope(sc, Anything), Scope(sc, RuleOf(sc, FromKeys(keys, from), grouped, groupBy));
      if ExprNames(src, keys, where_, [rows] + outer) && ExprsNames(src, keys, groupBy, [rows] + outer)
         && ExprNames(src, keys, having, [out] + outer) && ExprsNames(src, keys, orderBy, [out] + outer)
         && ItemsNames(src, keys, items, out, outer)
      then ItemCols(items, sc) else None
  }

  /** What a database answers: an error if it refuses the statement, otherwise what evaluation yields. */
  function Answer(src: Sources, keys: KeyColumns, q: Query): Option<Relation> {
    if QueryCols(src, keys, q, []).None? then None else EvalQuery(src, q, [])
  }
}
