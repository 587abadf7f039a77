/** The query tool: a caller's SELECT is checked, its table nodes are pointed at tenant-filtered
    tables, and it runs beneath the clauses that define those. */
module SqlScope {
  import opened Base
  import opened SqlModel
  import opened SqlRenaming
  import opened SqlNames
  import Text

  /** The key columns of the nodes, for the key columns declared of the tables. */
  function KeysOf(keys: map<string, string>, ts: seq<TableRef>): KeyColumns {
    seq(|ts|, i requires 0 <= i < |ts| => if Folded(ts[i]) in keys then Some(keys[Folded(ts[i])]) else None)
  }

  // ---- The tenant's part of the database ----

  const SCOPED := map["customers" := "__tenant_customers", "invoices" := "__tenant_invoices"]

  /** `name` is the column at `at` and no other. */
  predicate OnlyAt(cols: seq<string>, name: string, at: nat) {
    at < |cols| && forall i :: 0 <= i < |cols| ==> (cols[i] == name <==> i == at)
  }

  predicate Tabular(rel: Relation) { forall i :: 0 <= i < |rel.rows| ==> |rel.rows[i]| == |rel.cols| }

  /** The tables the tool serves, as the schema defines them: each row carries its tenant in one column. */
  predicate Tenanted(db: Database, at: map<string, nat>) {
    forall table :: table in SCOPED ==>
      table in db && table in at && Tabular(db[table]) && OnlyAt(db[table].cols, "tenant_id", at[table])
  }

  function Owned(rows: seq<Row>, at: nat, tenant: string): seq<Row>
    requires forall i :: 0 <= i < |rows| ==> at < |rows[i]|
  {
    if rows == [] then []
    else (if rows[0][at] == TextV(tenant) then [rows[0]] else []) + Owned(rows[1..], at, tenant)
  }

  function Slice(rel: Relation, at: nat, tenant: string): Relation
    requires Tabular(rel) && at < |rel.cols|
  {
    Relation(rel.cols, Owned(rel.rows, at, tenant))
  }

  /** The slice has the table's columns, and of its rows those of the tenant, in order. */
  lemma SliceIs(rel: Relation, at: nat, tenant: string) returns (places: seq<nat>)
    requires Tabular(rel) && at < |rel.cols|
    ensures var slice := Slice(rel, at, tenant);
      && slice.cols == rel.cols
      && Picked(rel.rows, OfTenant(at, tenant), Whole(), slice.rows, places)
  {
    places := OwnedIs(rel.rows, at, tenant);
  }

  function OfTenant(at: nat, tenant: string): Row -> bool { row => at < |row| && row[at] == TextV(tenant) }

  function Whole(): Row -> Row { row => row }

  lemma {:induction false} OwnedIs(rows: seq<Row>, at: nat, tenant: string) returns (places: seq<nat>)
    requires forall i :: 0 <= i < |rows| ==> at < |rows[i]|
    ensures Picked(rows, OfTenant(at, tenant), Whole(), Owned(rows, at, tenant), places)
  {
    var keep, same := OfTenant(at, tenant), Whole();
    if rows == [] {
      places := [];
    } else {
      var rest := OwnedIs(rows[1..], at, tenant);
      var owned := Owned(rows[1..], at, tenant);
      assert Owned(rows, at, tenant) == (if keep(rows[0]) then [same(rows[0])] else []) + owned;
      hide Owned, OfTenant, Whole, Picked;
      if keep(rows[0]) {
        PickedTake(rows, keep, same, owned, rest);
        places := Prepended(rest);
      } else {
        PickedSkip(rows, keep, same, owned, rest);
        places := Shifted(rest);
        assert [] + owned == owned;
      }
    }
  }

  /** The database cut down to one tenant's rows of the two tables. */
  function Cut(db: Database, at: map<string, nat>, tenant: string): Database
    requires Tenanted(db, at)
  {
    map table | table in SCOPED :: Slice(db[table], at[table], tenant)
  }

  // ---- What the tool runs ----

  function Plain(table: string): TableRef { TableRef("", table, false, None) }

  const TRUE := Lit(BoolV(true))

  /** SELECT * FROM table WHERE tenant_id = :tenant_id */
  function ScopeQuery(tenant: string): Query {
    Select(Star(NoItems), From.Base(0), Op(Eq, Col(None, "tenant_id"), Lit(TextV(tenant))),
           false, NoExprs, TRUE, false, NoExprs, None)
  }

  /** The tables in scope of a statement beneath the two WITH clauses, which group nothing and so need no keys. */
  function WithScope(db: Database, tenant: string): Option<Database> {
    var customers :- Answer(Sources(NodesOf(db, [Plain("customers")]), db), [], ScopeQuery(tenant));
    var invoices :- Answer(Sources(NodesOf(db, [Plain("invoices")]), db), [], ScopeQuery(tenant));
    Some(db["__tenant_customers" := customers]["__tenant_invoices" := invoices])
  }

  /** A statement beneath the clauses. The tables these define have no keys, and a statement that an expression is
      given as text runs outside of them. */
  function Run(db: Database, keys: map<string, string>, tenant: string, ts: seq<TableRef>, q: Query): Option<Relation> {
    var session :- WithScope(db, tenant);
    Answer(Sources(NodesOf(session, ts), db), KeysOf(keys - SCOPED.Values, ts), q)
  }

  /** The table nodes of the query as it was written, on the database cut down to the tenant. */
  function CutSources(db: Database, at: map<string, nat>, tenant: string, ts: seq<TableRef>): Sources
    requires Tenanted(db, at)
  {
    Sources(NodesOf(Cut(db, at, tenant), ts), Cut(db, at, tenant))
  }

  /** What the query as it was written answers there. */
  function OnSlice(
    db: Database, at: map<string, nat>, keys: map<string, string>, tenant: string, ts: seq<TableRef>, q: Query)
    : Option<Relation>
    requires Tenanted(db, at)
  {
    Answer(CutSources(db, at, tenant, ts), KeysOf(keys, ts), q)
  }

  // ---- Checking and rewriting ----

  datatype Statement = Read(q: Query, hasWith: bool) | Write

  predicate Servable(ts: seq<TableRef>) {
    ts != [] && forall i :: 0 <= i < |ts| ==> ts[i].db == "" && Lower(ts[i].name) in SCOPED
  }

  datatype Refusal = Unparsable | NotOneStatement | NotSelect | OwnWith | SchemaQualified | OtherTables | Rejected

  datatype Outcome = Accept(q: Query) | Refuse(why: Refusal)

  /** The one statement the tool would run, or why it refuses. */
  function Verdict(statements: seq<Statement>, ts: seq<TableRef>): Outcome {
    if |statements| != 1 then Refuse(NotOneStatement)
    else if !statements[0].Read? || !statements[0].q.Select? then Refuse(NotSelect)
    else if statements[0].hasWith then Refuse(OwnWith)
    else if exists i :: 0 <= i < |ts| && ts[i].db != "" then
      Refuse(SchemaQualified)
    else if !Servable(ts) then Refuse(OtherTables)
    else Accept(statements[0].q)
  }

  function Repoint(t: TableRef): TableRef
    requires Lower(t.name) in SCOPED
  {
    t.(name := SCOPED[Lower(t.name)], quoted := false)
  }

  function Repointed(ts: seq<TableRef>): seq<TableRef>
    requires Servable(ts)
  {
    seq(|ts|, i requires 0 <= i < |ts| => Repoint(ts[i]))
  }

  method RepointAll(nodes: array<TableRef>)
    requires Servable(nodes[..])
    modifies nodes
    ensures nodes[..] == Repointed(old(nodes[..]))
  {
    hide Lower;
    for i := 0 to nodes.Length
      invariant forall j :: 0 <= j < i ==> nodes[j] == Repointed(old(nodes[..]))[j]
      invariant forall j :: i <= j < nodes.Length ==> nodes[j] == old(nodes[j])
    {
      nodes[i] := Repoint(nodes[i]);
    }
  }

  /** Accepts exactly one plain SELECT without WITH over the two tables, in whatever case they are written. The checks
      run in this order, each of the five refusals telling which one was the first to fail; an accepted query keeps
      everything but the names of its tables. */
  method ValidateQuery(statements: seq<Statement>, nodes: array<TableRef>) returns (r: Outcome)
    modifies nodes
    ensures r.Accept? <==>
      && |statements| == 1 && statements[0].Read? && statements[0].q.Select? && !statements[0].hasWith
      && nodes.Length > 0
      && forall i :: 0 <= i < nodes.Length ==>
          old(nodes[i]).db == "" && Lower(old(nodes[i]).name) in {"customers", "invoices"}
    ensures r.Accept? ==>
      && r.q == statements[0].q
      && forall i :: 0 <= i < nodes.Length ==>
          nodes[i] == old(nodes[i]).(
            name := if Lower(old(nodes[i]).name) == "customers" then "__tenant_customers" else "__tenant_invoices",
            quoted := false)
    ensures r.Refuse? ==> nodes[..] == old(nodes[..])
    ensures r == Refuse(NotOneStatement) <==> |statements| != 1
    ensures r == Refuse(NotSelect) <==> |statements| == 1 && !(statements[0].Read? && statements[0].q.Select?)
    ensures r == Refuse(OwnWith) <==>
      |statements| == 1 && statements[0].Read? && statements[0].q.Select? && statements[0].hasWith
    ensures r == Refuse(SchemaQualified) <==>
      && |statements| == 1 && statements[0].Read? && statements[0].q.Select? && !statements[0].hasWith
      && exists i :: 0 <= i < nodes.Length && old(nodes[i]).db != ""
    ensures r == Refuse(OtherTables) <==>
      && |statements| == 1 && statements[0].Read? && statements[0].q.Select? && !statements[0].hasWith
      && (forall i :: 0 <= i < nodes.Length ==> old(nodes[i]).db == "")
      && (nodes.Length == 0
          || exists i :: 0 <= i < nodes.Length && Lower(old(nodes[i]).name) !in {"customers", "invoices"})
    ensures r == Verdict(statements, old(nodes[..]))
    ensures nodes[..] == if r.Accept? then Repointed(old(nodes[..])) else old(nodes[..])
  {
    hide Lower;
    if |statements| != 1 { return Refuse(NotOneStatement); }
    var stmt := statements[0];
    if !stmt.Read? || !stmt.q.Select? { return Refuse(NotSelect); }
    if stmt.hasWith { return Refuse(OwnWith); }

    ghost var ts := nodes[..];
    var names: set<string> := {};
    for i := 0 to nodes.Length
      invariant forall j :: 0 <= j < i ==> ts[j].db == "" && Lower(ts[j].name) in names
      invariant forall name :: name in names ==> exists j :: 0 <= j < i && Lower(ts[j].name) == name
    {
      if nodes[i].db != "" {
        assert ts[i].db != "";
        return Refuse(SchemaQualified);
      }
      names := names + {Lower(nodes[i].name)};
    }
    assert ts != [] ==> Lower(ts[0].name) in names;
    if names == {} || !(names <= SCOPED.Keys) {
      assert !Servable(ts);
      return Refuse(OtherTables);
    }
    assert Servable(ts);
    RepointAll(nodes);
    return Accept(stmt.q);
  }

  // ---- The WITH clauses define the tenant's slice ----

  lemma {:induction false} HitsOnly(cols: seq<string>, vals: Row, name: string, at: nat)
    requires OnlyAt(cols, name, at) && |vals| == |cols|
    ensures ColumnHits(cols, vals, name) == [vals[at]]
  {
    if at == 0 {
      NoHits(cols[1..], vals[1..], name);
    } else {
      HitsOnly(cols[1..], vals[1..], name, at - 1);
    }
  }

  lemma {:induction false} NoHits(cols: seq<string>, vals: Row, name: string)
    requires name !in cols
    ensures ColumnHits(cols, vals, name) == []
  {
    if cols != [] && vals != [] { NoHits(cols[1..], vals[1..], name); }
  }

  /** An unqualified or alias-qualified column of a single table is that row's value. */
  lemma ResolveOnly(alias: string, cols: seq<string>, row: Row, qual: Option<string>, name: string, at: nat)
    requires OnlyAt(cols, name, at) && |row| == |cols| && (qual.Some? ==> qual.value == alias)
    ensures Resolve([[Binding(alias, cols, row)]], qual, name) == Some(row[at])
  {
    HitsOnly(cols, row, name, at);
    var f := [Binding(alias, cols, row)];
    assert f[1..] == [] && Hits(f, qual, name) == ColumnHits(cols, row, name) + Hits([], qual, name);
  }

  lemma OwnsRow(src: Sources, alias: string, cols: seq<string>, row: Row, at: nat, tenant: string)
    requires OnlyAt(cols, "tenant_id", at) && |row| == |cols|
    ensures var v := EvalExpr(src, ScopeQuery(tenant).where_, [[Binding(alias, cols, row)]],
      [[Binding(alias, cols, row)]]);
      v.Some? && (v.value == BoolV(true) <==> row[at] == TextV(tenant))
  {
    hide Resolve;
    ResolveOnly(alias, cols, row, None, "tenant_id", at);
    var scopes := [[Binding(alias, cols, row)]];
    assert EvalExpr(src, Col(None, "tenant_id"), scopes, scopes) == Some(row[at]);
    assert EvalExpr(src, Lit(TextV(tenant)), scopes, scopes) == Some(TextV(tenant));
  }

  lemma {:induction false} FilterOwns(
    src: Sources, alias: string, cols: seq<string>, rows: seq<Row>, at: nat, tenant: string)
    requires OnlyAt(cols, "tenant_id", at) && forall i :: 0 <= i < |rows| ==> |rows[i]| == |cols|
    ensures Filter(src, ScopeQuery(tenant).where_, BindRows(alias, cols, rows), [])
         == Some(BindRows(alias, cols, Owned(rows, at, tenant)))
  {
    hide EvalExpr;
    var frames := BindRows(alias, cols, rows);
    if rows != [] {
      OwnsRow(src, alias, cols, rows[0], at, tenant);
      assert [frames[0]] + [] == [[Binding(alias, cols, rows[0])]];
      assert frames[1..] == BindRows(alias, cols, rows[1..]);
      FilterOwns(src, alias, cols, rows[1..], at, tenant);
      var rest := Owned(rows[1..], at, tenant);
      assert BindRows(alias, cols, [rows[0]] + rest) == [frames[0]] + BindRows(alias, cols, rest);
      assert [] + rest == rest && [] + BindRows(alias, cols, rest) == BindRows(alias, cols, rest);
    }
  }

  lemma {:induction false} FilterTrue(src: Sources, frames: seq<Frame>)
    ensures Filter(src, TRUE, frames, []) == Some(frames)
  {
    if frames != [] {
      FilterTrue(src, frames[1..]);
      assert [frames[0]] + frames[1..] == frames;
    }
  }

  lemma {:induction false} KeepTrue(src: Sources, cs: seq<Context>)
    ensures Keep(src, TRUE, cs, []) == Some(cs)
  {
    if cs != [] {
      KeepTrue(src, cs[1..]);
      assert [cs[0]] + cs[1..] == cs;
    }
  }

  lemma {:induction false} StarRows(src: Sources, alias: string, cols: seq<string>, rows: seq<Row>)
    ensures ProjectAll(src, Star(NoItems), Solo(BindRows(alias, cols, rows)), []) == Some(rows)
  {
    if rows != [] {
      var cs := Solo(BindRows(alias, cols, rows));
      assert cs[1..] == Solo(BindRows(alias, cols, rows[1..]));
      StarRows(src, alias, cols, rows[1..]);
      assert cs[0].current == [Binding(alias, cols, rows[0])] && cs[0].current[1..] == [];
      assert AllVals(cs[0].current) == rows[0] + AllVals([]) == rows[0];
      assert [rows[0]] + rows[1..] == rows;
    }
  }

  function Blanks(n: nat): seq<Row> { seq(n, i => []) }

  lemma {:induction false} NoSortKeys(src: Sources, cs: seq<Context>)
    ensures SortKeys(src, NoExprs, cs, []) == Some(Blanks(|cs|))
  {
    if cs == [] {
      assert Blanks(0) == [];
    } else {
      NoSortKeys(src, cs[1..]);
      var scopes := [cs[0].current] + [];
      assert EvalKeys(src, NoExprs, scopes, cs[0].group) == Some([]);
      assert SortKeys(src, NoExprs, cs, []) == Some([[]] + Blanks(|cs| - 1));
      assert [[]] + Blanks(|cs| - 1) == Blanks(|cs|);
    }
  }

  lemma {:induction false} KeepsOrder(rows: seq<Row>)
    ensures |Zip(Blanks(|rows|), rows)| == |rows|
    ensures SortRows(Zip(Blanks(|rows|), rows)) == Zip(Blanks(|rows|), rows)
    ensures forall i :: 0 <= i < |rows| ==> Zip(Blanks(|rows|), rows)[i] == ([], rows[i])
  {
    if rows != [] {
      assert Blanks(|rows|)[1..] == Blanks(|rows| - 1);
      KeepsOrder(rows[1..]);
    }
  }

  lemma Unfinished(rows: seq<Row>)
    ensures Finish(Zip(Blanks(|rows|), rows), false, None) == rows
  {
    KeepsOrder(rows);
  }

  lemma {:induction false} CountOnly(cols: seq<string>, name: string, at: nat)
    requires OnlyAt(cols, name, at)
    ensures ColumnCount(cols, name) == 1
  {
    if at == 0 {
      CountNone(cols[1..], name);
    } else {
      CountOnly(cols[1..], name, at - 1);
    }
  }

  lemma {:induction false} CountNone(cols: seq<string>, name: string)
    requires name !in cols
    ensures ColumnCount(cols, name) == 0
  {
    if cols != [] { CountNone(cols[1..], name); }
  }

  lemma {:induction false} FoundAt(cols: seq<string>, name: string, at: nat)
    requires OnlyAt(cols, name, at)
    ensures ColumnAt(cols, name) == at
  {
    if at > 0 { FoundAt(cols[1..], name, at - 1); }
  }

  /** A column of a single table, unqualified or qualified by the table's alias. */
  lemma OneSpot(alias: string, cols: seq<string>, qual: Option<string>, name: string, at: nat)
    requires OnlyAt(cols, name, at) && (qual.Some? ==> qual.value == alias)
    ensures NameCount([(alias, cols)], qual, name) == 1 && SpotOf([(alias, cols)], qual, name) == (0, at)
  {
    CountOnly(cols, name, at);
    FoundAt(cols, name, at);
    var sc := [(alias, cols)];
    assert sc[1..] == [] && NameCount(sc, qual, name) == ColumnCount(cols, name) + NameCount([], qual, name);
  }

  lemma ScopeQueryNames(src: Sources, alias: string, rel: Relation, at: nat, tenant: string)
    requires src.nodes == [Some(Source(alias, rel))] && OnlyAt(rel.cols, "tenant_id", at)
    ensures QueryCols(src, [], ScopeQuery(tenant), []) == Some(rel.cols)
  {
    hide OnlyAt, NameCount, SpotOf;
    var sc, q := [(alias, rel.cols)], ScopeQuery(tenant);
    OneSpot(alias, rel.cols, None, "tenant_id", at);
    var scopes := [Scope(sc, Anything)];
    assert scopes + [] == scopes;
    assert ExprNames(src, [], Col(None, "tenant_id"), scopes) && ExprNames(src, [], Lit(TextV(tenant)), scopes);
    assert ExprNames(src, [], q.where_, scopes) && ExprNames(src, [], TRUE, scopes);
    assert ItemsNames(src, [], NoItems, scopes[0], []) && ItemsNames(src, [], q.items, scopes[0], []);
    StarCols(alias, rel.cols);
  }

  lemma StarCols(alias: string, cols: seq<string>)
    ensures ItemCols(Star(NoItems), [(alias, cols)]) == Some(cols)
  {
    assert [(alias, cols)][1..] == [];
    assert AllCols([(alias, cols)]) == cols + AllCols([]) == cols;
    assert ItemCols(NoItems, [(alias, cols)]) == Some([]) && cols + [] == cols;
  }

  lemma CteIsSlice(db: Database, table: string, at: nat, tenant: string)
    requires table in db && Lower(table) == table && Tabular(db[table]) && OnlyAt(db[table].cols, "tenant_id", at)
    ensures Answer(Sources(NodesOf(db, [Plain(table)]), db), [], ScopeQuery(tenant))
      == Some(Slice(db[table], at, tenant))
  {
    hide Filter, Keep, ProjectAll, SortKeys, Finish, Zip, Owned, Lower, Blanks, QueryCols, ItemCols;
    var src, rel := Sources(NodesOf(db, [Plain(table)]), db), db[table];
    var mine := Owned(rel.rows, at, tenant);
    FilterOwns(src, table, rel.cols, rel.rows, at, tenant);
    var frames := BindRows(table, rel.cols, mine);
    KeepTrue(src, Solo(frames));
    StarRows(src, table, rel.cols, mine);
    NoSortKeys(src, Solo(frames));
    Unfinished(mine);
    StarCols(table, rel.cols);
    assert EvalFrom(src, ScopeQuery(tenant).from, [])
        == Some(Frames([(table, rel.cols)], BindRows(table, rel.cols, rel.rows)));
    assert EvalQuery(src, ScopeQuery(tenant), []) == Some(Slice(rel, at, tenant));
    ScopeQueryNames(src, table, rel, at, tenant);
  }

  /** Beneath the clauses, the two scoped names stand for the tenant's slices and everything else is as before. */
  lemma ScopeIsCut(db: Database, at: map<string, nat>, tenant: string)
    requires Tenanted(db, at)
    ensures WithScope(db, tenant)
         == Some(db["__tenant_customers" := Cut(db, at, tenant)["customers"]]
                   ["__tenant_invoices" := Cut(db, at, tenant)["invoices"]])
  {
    hide EvalQuery, Slice, OnlyAt, Tabular;
    assert "customers" in SCOPED && "invoices" in SCOPED;
    CteIsSlice(db, "customers", at["customers"], tenant);
    CteIsSlice(db, "invoices", at["invoices"], tenant);
  }

  // ---- Where the rewritten nodes point ----

  lemma ScopedNamesFold()
    ensures Lower("__tenant_customers") == "__tenant_customers" && Lower("__tenant_invoices") == "__tenant_invoices"
  {}

  /** A table that an accepted query names always exists, whatever the database holds. */
  lemma LookupNeverFails(db: Database, tenant: string, ts: seq<TableRef>, i: nat)
    requires Servable(ts) && WithScope(db, tenant).Some? && i < |ts|
    ensures NodesOf(WithScope(db, tenant).value, Repointed(ts))[i].Some?
  {
    hide EvalQuery, Lower;
    ScopedNamesFold();
  }

  /** The rewritten nodes, wherever they stand in a query, see nothing but the tenant's slices. */
  lemma SourcesOnlyFromCut(db: Database, at: map<string, nat>, tenant: string, ts: seq<TableRef>, i: nat)
    requires Servable(ts) && Tenanted(db, at) && i < |ts|
    ensures WithScope(db, tenant).Some?
    ensures NodesOf(WithScope(db, tenant).value, Repointed(ts))[i]
         == Some(Source(if ts[i].alias.Some? then ts[i].alias.value else SCOPED[Lower(ts[i].name)],
                        Cut(db, at, tenant)[Lower(ts[i].name)]))
  {
    hide EvalQuery, Slice, OnlyAt, Tabular;
    ScopeIsCut(db, at, tenant);
    ScopedNamesFold();
  }

  /** What a caller can check: no expression is given a statement as text to run. */
  predicate Textless(q: Query) { Avoids(Ban({}, {}, true), q) }

  /** A ban on nothing but texts, or on less. */
  lemma TextlessAvoids(q: Query, texts: bool)
    requires Textless(q)
    ensures Avoids(Ban({}, {}, texts), q)
  {
    hide Avoids;
    AvoidsBoth(Ban({}, {}, true), Ban({}, {}, texts), q);
    assert Both(Ban({}, {}, true), Ban({}, {}, texts)) == Ban({}, {}, true);
  }

  lemma KeylessNodes(keys: map<string, string>, ts: seq<TableRef>)
    requires Servable(ts)
    ensures KeysOf(keys - SCOPED.Values, Repointed(ts)) == NoKeys(|ts|)
  {
    ScopedNamesFold();
    hide Lower;
    assert forall table :: table in SCOPED ==> SCOPED[table] in SCOPED.Values;
  }

  /** Main result: whatever the query is otherwise, if it runs no statement given as text, other tenants' rows have no
      influence on the answer. */
  lemma TenantIsolation(
    db: Database, other: Database, at: map<string, nat>, keys: map<string, string>, tenant: string, ts: seq<TableRef>,
    q: Query)
    requires Servable(ts) && Tenanted(db, at) && Tenanted(other, at) && Textless(q)
    requires Cut(db, at, tenant) == Cut(other, at, tenant)
    ensures Run(db, keys, tenant, Repointed(ts), q) == Run(other, keys, tenant, Repointed(ts), q)
  {
    hide Answer, Cut, Tenanted, WithScope, Textless, Avoids, Bind;
    ScopeIsCut(db, at, tenant);
    ScopeIsCut(other, at, tenant);
    var a, b := WithScope(db, tenant).value, WithScope(other, tenant).value;
    forall i | 0 <= i < |ts| ensures NodesOf(a, Repointed(ts))[i] == NodesOf(b, Repointed(ts))[i] {
      SourcesOnlyFromCut(db, at, tenant, ts, i);
      SourcesOnlyFromCut(other, at, tenant, ts, i);
    }
    var nodes := NodesOf(a, Repointed(ts));
    assert nodes == NodesOf(b, Repointed(ts));
    OtherDatabase(nodes, db, other, KeysOf(keys - SCOPED.Values, Repointed(ts)), q);
  }

  lemma OtherDatabase(nodes: seq<Option<Source>>, db: Database, other: Database, keys: KeyColumns, q: Query)
    requires Textless(q)
    ensures Answer(Sources(nodes, db), keys, q) == Answer(Sources(nodes, other), keys, q)
  {
    hide Answer, Textless, Avoids;
    var src := Sources(nodes, db);
    TextlessAvoids(q, other != db);
    assert Names(map[]) == {};
    assert Sources(nodes, other) == RenSources(map[], other, src) by {
      assert forall i :: 0 <= i < |nodes| ==> RenSource(map[], nodes[i]) == nodes[i];
    }
    SameAnswer(map[], other, src, keys, q);
  }

  // ---- What the rewritten query means ----

  /** The tables the query uses under their own names, and what those names become. */
  function Bare(ts: seq<TableRef>): Renaming {
    map table | table in SCOPED && exists t :: t in ts && t.alias.None? && Lower(t.name) == table :: SCOPED[table]
  }

  /** What a caller can check of the tables: quoted names are in lower case, and no alias is the name of a table
      without an alias, be it the old or the new one. */
  predicate AliasesOwn(ts: seq<TableRef>, q: Query) {
    && (forall i :: 0 <= i < |ts| && ts[i].quoted ==> Lower(ts[i].name) == ts[i].name)
    && (forall i :: 0 <= i < |ts| && ts[i].alias.Some? ==> Free(Bare(ts), ts[i].alias.value))
    && Avoids(Ban({}, Names(Bare(ts)), false), q)
  }

  /** No column is qualified by the old or new name of a table without an alias either. */
  predicate QualifiesByAlias(ts: seq<TableRef>, q: Query) {
    AliasesOwn(ts, q) && Avoids(Ban(Names(Bare(ts)), {}, false), q)
  }

  /** The query passes the checks before any row is read, its grouping among them, although no key is known. This
      depends on the columns of the tables only. */
  predicate NeedsNoKeys(db: Database, at: map<string, nat>, tenant: string, ts: seq<TableRef>, q: Query)
    requires Tenanted(db, at)
  {
    QueryCols(CutSources(db, at, tenant, ts), NoKeys(|ts|), q, []).Some?
  }

  lemma BareApart(ts: seq<TableRef>)
    ensures Apart(Bare(ts))
  {
    assert forall a, b :: a in SCOPED && b in SCOPED && SCOPED[a] == SCOPED[b] ==> a == b;
    assert SCOPED.Keys !! SCOPED.Values;
  }

  lemma SourceRenamed(db: Database, at: map<string, nat>, tenant: string, ts: seq<TableRef>, q: Query, i: nat)
    requires Servable(ts) && Tenanted(db, at) && AliasesOwn(ts, q) && i < |ts|
    ensures WithScope(db, tenant).Some?
    ensures NodesOf(WithScope(db, tenant).value, Repointed(ts))[i]
         == RenSource(Bare(ts), Bind(Cut(db, at, tenant), ts[i]))
    ensures Bind(Cut(db, at, tenant), ts[i]).Some?
         && Unused(Bare(ts), Bind(Cut(db, at, tenant), ts[i]).value.alias)
  {
    hide Answer, Slice, OnlyAt, Tabular, Avoids, WithScope;
    SourcesOnlyFromCut(db, at, tenant, ts, i);
    assert Folded(ts[i]) == Lower(ts[i].name);
    if ts[i].alias.None? {
      assert ts[i] in ts;
      assert Lower(ts[i].name) in Bare(ts);
    }
  }

  /** Beneath the clauses the rewritten nodes are the original ones on the slice, renamed. */
  lemma SourcesRenamed(db: Database, at: map<string, nat>, tenant: string, ts: seq<TableRef>, q: Query)
    requires Servable(ts) && Tenanted(db, at) && AliasesOwn(ts, q)
    ensures WithScope(db, tenant).Some?
    ensures Sources(NodesOf(WithScope(db, tenant).value, Repointed(ts)), db)
         == RenSources(Bare(ts), db, CutSources(db, at, tenant, ts))
    ensures SourcesUnused(Bare(ts), CutSources(db, at, tenant, ts))
  {
    hide EvalQuery, Cut, Avoids, WithScope, Bind, RenSource, Tenanted, Bare, AliasesOwn;
    var ren, here := Bare(ts), CutSources(db, at, tenant, ts).nodes;
    ScopeIsCut(db, at, tenant);
    var there := NodesOf(WithScope(db, tenant).value, Repointed(ts));
    forall i | 0 <= i < |ts|
      ensures there[i] == RenSource(ren, here[i]) && here[i].Some? && Unused(ren, here[i].value.alias)
    {
      SourceRenamed(db, at, tenant, ts, q, i);
    }
  }

  /** Avoiding the old and new names as qualifiers and as aliases, and texts, is all a renaming asks for. */
  lemma AllAvoided(ts: seq<TableRef>, q: Query, same: bool)
    requires QualifiesByAlias(ts, q) && Textless(q)
    ensures QueryFree(Bare(ts), same, q)
  {
    hide Avoids, Bare;
    var names := Names(Bare(ts));
    AvoidsBoth(Ban(names, {}, false), Ban({}, names, false), q);
    var both := Both(Ban(names, {}, false), Ban({}, names, false));
    assert both == Ban(names, names, false);
    TextlessAvoids(q, !same);
    AvoidsBoth(both, Ban({}, {}, !same), q);
    assert Both(both, Ban({}, {}, !same)) == Strict(Bare(ts), same);
  }

  /** Under the new names and without keys, the query is refused beneath the clauses iff it is on the slice; if not,
      both have the same rows. */
  lemma RunIsKeyless(
    db: Database, at: map<string, nat>, keys: map<string, string>, tenant: string, ts: seq<TableRef>, q: Query)
    requires Servable(ts) && Tenanted(db, at) && QualifiesByAlias(ts, q) && Textless(q)
    ensures Run(db, keys, tenant, Repointed(ts), q) == Answer(CutSources(db, at, tenant, ts), NoKeys(|ts|), q)
  {
    hide Answer, Cut, Apart, WithScope, Tenanted, Bare, CutSources, SourcesUnused, Avoids, QualifiesByAlias, Textless;
    var here := CutSources(db, at, tenant, ts);
    AllAvoided(ts, q, db == here.raw);
    KeylessNodes(keys, ts);
    assert AliasesOwn(ts, q) by { OwnAliases(ts, q); }
    SourcesRenamed(db, at, tenant, ts, q);
    BareApart(ts);
    SameAnswer(Bare(ts), db, here, NoKeys(|ts|), q);
  }

  lemma OwnAliases(ts: seq<TableRef>, q: Query)
    requires QualifiesByAlias(ts, q)
    ensures AliasesOwn(ts, q)
  {}

  /** Main result: the rewritten query beneath the WITH clauses answers exactly what the query itself answers on the
      database cut down to the tenant. */
  lemma RewriteMeansSlice(
    db: Database, at: map<string, nat>, keys: map<string, string>, tenant: string, ts: seq<TableRef>, q: Query)
    requires Servable(ts) && Tenanted(db, at) && QualifiesByAlias(ts, q) && Textless(q)
    requires NeedsNoKeys(db, at, tenant, ts, q)
    ensures Run(db, keys, tenant, Repointed(ts), q) == OnSlice(db, at, keys, tenant, ts, q)
  {
    hide EvalQuery, Cut, WithScope, Tenanted, CutSources, Avoids, QualifiesByAlias, Textless, QueryCols, Run;
    RunIsKeyless(db, at, keys, tenant, ts, q);
    LooserCols(CutSources(db, at, tenant, ts), |ts|, KeysOf(keys, ts), q, [], []);
  }

  // ---- Where the rewrite changes the meaning ----

  /** After the rewrite no table is called by its old bare name; before it none is called by the new one. */
  lemma OldAndNewNames(db: Database, at: map<string, nat>, tenant: string, ts: seq<TableRef>, q: Query)
    requires Servable(ts) && Tenanted(db, at) && AliasesOwn(ts, q)
    ensures WithScope(db, tenant).Some?
    ensures SourcesUncalled(Bare(ts).Keys, Sources(NodesOf(WithScope(db, tenant).value, Repointed(ts)), db))
    ensures SourcesUncalled(Bare(ts).Values, CutSources(db, at, tenant, ts))
  {
    hide Cut, Tenanted, Bare, CutSources, Avoids, WithScope, AliasesOwn;
    SourcesRenamed(db, at, tenant, ts, q);
    BareApart(ts);
    CalledAnew(Bare(ts), db, CutSources(db, at, tenant, ts));
  }

  lemma CalledAnew(ren: Renaming, raw: Database, src: Sources)
    requires Apart(ren) && SourcesUnused(ren, src)
    ensures SourcesUncalled(ren.Keys, RenSources(ren, raw, src)) && SourcesUncalled(ren.Values, src)
  {
    forall i | 0 <= i < |src.nodes| && src.nodes[i].Some?
      ensures Called(ren, src.nodes[i].value.alias) !in ren.Keys && src.nodes[i].value.alias !in ren.Values
    {
      assert Unused(ren, src.nodes[i].value.alias);
    }
  }

  lemma AnsweredAvoids(names: set<string>, src: Sources, keys: KeyColumns, q: Query)
    requires SourcesUncalled(names, src) && Avoids(Ban({}, names, false), q) && Answer(src, keys, q).Some?
    ensures Avoids(Ban(names, {}, false), q)
  {
    hide EvalQuery, QueryCols, Avoids, SourcesUncalled;
    assert AllUncalled(names, []);
    NamesNothing(names, src, keys, q, []);
  }

  /** Exact condition, for every query whose aliases are its own and that runs no text: if it qualifies a column by the
      bare name of a table, or uses a column that its grouping determines by a key only, it fails once rewritten; if it
      qualifies by the new name, it fails before; otherwise the meaning is kept. So of the queries with an answer on the
      slice, the rewrite keeps exactly those that do neither. */
  lemma MeaningKeptIff(
    db: Database, at: map<string, nat>, keys: map<string, string>, tenant: string, ts: seq<TableRef>, q: Query)
    requires Servable(ts) && Tenanted(db, at) && AliasesOwn(ts, q) && Textless(q)
    ensures var here, there := OnSlice(db, at, keys, tenant, ts, q), Run(db, keys, tenant, Repointed(ts), q);
      && (!Avoids(Ban(Bare(ts).Keys, {}, false), q) ==> there.None?)
      && (!Avoids(Ban(Bare(ts).Values, {}, false), q) ==> here.None?)
      && (QualifiesByAlias(ts, q) ==>
            if NeedsNoKeys(db, at, tenant, ts, q) then there == here else there.None?)
      && (here.Some? ==>
            (there == here <==> Avoids(Ban(Bare(ts).Keys, {}, false), q) && NeedsNoKeys(db, at, tenant, ts, q)))
  {
    hide Answer, Cut, Tenanted, Bare, CutSources, Avoids, WithScope, SourcesUncalled, Textless, NeedsNoKeys;
    var ren, here := Bare(ts), CutSources(db, at, tenant, ts);
    OldAndNewNames(db, at, tenant, ts, q);
    var there := Sources(NodesOf(WithScope(db, tenant).value, Repointed(ts)), db);
    var theirKeys := KeysOf(keys - SCOPED.Values, Repointed(ts));
    SplitNames(ren, q);
    if Answer(there, theirKeys, q).Some? { AnsweredAvoids(ren.Keys, there, theirKeys, q); }
    if Answer(here, KeysOf(keys, ts), q).Some? { AnsweredAvoids(ren.Values, here, KeysOf(keys, ts), q); }
    if QualifiesByAlias(ts, q) {
      RunIsKeyless(db, at, keys, tenant, ts, q);
      if NeedsNoKeys(db, at, tenant, ts, q) {
        RewriteMeansSlice(db, at, keys, tenant, ts, q);
      } else {
        RefusedWithoutKeys(db, at, tenant, ts, q);
      }
    }
  }

  lemma RefusedWithoutKeys(db: Database, at: map<string, nat>, tenant: string, ts: seq<TableRef>, q: Query)
    requires Tenanted(db, at) && !NeedsNoKeys(db, at, tenant, ts, q)
    ensures Answer(CutSources(db, at, tenant, ts), NoKeys(|ts|), q).None?
  {
    hide EvalQuery, QueryCols, CutSources;
  }

  lemma SplitNames(ren: Renaming, q: Query)
    ensures Avoids(Ban({}, Names(ren), false), q) <==>
      Avoids(Ban({}, ren.Keys, false), q) && Avoids(Ban({}, ren.Values, false), q)
    ensures Avoids(Ban(Names(ren), {}, false), q) <==>
      Avoids(Ban(ren.Keys, {}, false), q) && Avoids(Ban(ren.Values, {}, false), q)
  {
    hide Avoids;
    AvoidsBoth(Ban({}, ren.Keys, false), Ban({}, ren.Values, false), q);
    AvoidsBoth(Ban(ren.Keys, {}, false), Ban(ren.Values, {}, false), q);
    var none: set<string> := {};
    assert none + none == none;
  }

  // ---- The tool ----

  const MAX_ROWS := 100

  datatype Reply = BlankQuery | Failed(why: Refusal) | Table(rel: Relation, count: nat, truncated: bool)

  /** What the caller is shown of a result. */
  function Shown(r: Option<Relation>): Reply {
    match r
    case None => Failed(Rejected)
    case Some(rel) =>
      var few := if |rel.rows| > MAX_ROWS then rel.rows[..MAX_ROWS] else rel.rows;
      Table(Relation(rel.cols, few), |few|, |rel.rows| > MAX_ROWS)
  }

  lemma AcceptedIsServable(statements: seq<Statement>, ts: seq<TableRef>)
    requires Verdict(statements, ts).Accept?
    ensures Servable(ts)
  {}

  /** `parsed` is the parser's outcome: None if the text is not SQL. */
  method QueryDatabase(
    query: string, parsed: Option<seq<Statement>>, nodes: array<TableRef>, db: Database, keys: map<string, string>,
    tenant: string, ghost at: map<string, nat>) returns (r: Reply)
    modifies nodes
    ensures r == BlankQuery <==> Text.Blank(query)
    ensures !Text.Blank(query) && parsed.None? ==> r == Failed(Unparsable)
    ensures !Text.Blank(query) && parsed.Some? ==>
      match Verdict(parsed.value, old(nodes[..]))
      case Refuse(why) => r == Failed(why)
      case Accept(q) =>
        && Servable(old(nodes[..]))
        && r == Shown(Run(db, keys, tenant, Repointed(old(nodes[..])), q))
        && (match Run(db, keys, tenant, Repointed(old(nodes[..])), q)
            case None => r == Failed(Rejected)
            case Some(rel) =>
              && r.Table? && r.rel.cols == rel.cols && r.rel.rows <= rel.rows
              && r.count == |r.rel.rows| == Min(100, |rel.rows|) && (r.truncated <==> |rel.rows| > 100))
        && (Tenanted(db, at) && QualifiesByAlias(old(nodes[..]), q) && Textless(q) ==>
              NeedsNoKeys(db, at, tenant, old(nodes[..]), q) ==>
              r == Shown(OnSlice(db, at, keys, tenant, old(nodes[..]), q)))
  {
    hide Answer, Tenanted, WithScope, Lower, Repointed, Verdict, QualifiesByAlias, Textless, NeedsNoKeys,
      Run, OnSlice, Cut, Text.StripLeft, Text.StripRight;
    if Text.Strip(query) == "" { return BlankQuery; }
    if parsed.None? { return Failed(Unparsable); }
    ghost var written := nodes[..];
    var verdict := ValidateQuery(parsed.value, nodes);
    if verdict.Refuse? { return Failed(verdict.why); }
    AcceptedIsServable(parsed.value, written);
    if Tenanted(db, at) && QualifiesByAlias(written, verdict.q) && Textless(verdict.q) {
      if NeedsNoKeys(db, at, tenant, written, verdict.q) {
        RewriteMeansSlice(db, at, keys, tenant, written, verdict.q);
      }
    }
    var result := Run(db, keys, tenant, nodes[..], verdict.q);
    if result.None? { return Failed(Rejected); }
    var fetched := result.value.rows[..Min(MAX_ROWS + 1, |result.value.rows|)];
    var truncated := |fetched| > MAX_ROWS;
    var rows := fetched[..Min(MAX_ROWS, |fetched|)];
    return Table(Relation(result.value.cols, rows), |rows|, truncated);
  }
}
