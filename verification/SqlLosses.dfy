/** What the rewrite does not keep: for each hypothesis of its theorems, queries that show why it is needed. */
module SqlLosses {
  import opened Base
  import opened SqlModel
  import opened SqlRenaming
  import opened SqlNames
  import opened SqlScope

  // ---- Statements given as text ----

  /** SELECT count(true) AS n FROM the first table */
  function CountAll(): Query {
    Select(Column(Agg(Count, TRUE), "n", NoItems), From.Base(0), TRUE, true, NoExprs, TRUE, false, NoExprs, None)
  }

  /** A query of the table that also has a count of the table run as text. */
  function CountsText(table: string): Query {
    Select(Column(RunText([Plain(table)], CountAll()), "seen", Column(Agg(Count, TRUE), "mine", NoItems)),
           From.Base(0), TRUE, true, NoExprs, TRUE, false, NoExprs, None)
  }

  function Trues(n: nat): Row { seq(n, i => BoolV(true)) }

  lemma {:induction false} TrueOver(src: Sources, frames: seq<Frame>)
    ensures EvalOver(src, TRUE, frames, []) == Some(Trues(|frames|))
  {
    if frames == [] {
      assert Trues(0) == [];
    } else {
      TrueOver(src, frames[1..]);
      var scopes := [frames[0]] + [];
      assert EvalExpr(src, TRUE, scopes, [frames[0]]) == Some(BoolV(true));
      assert [BoolV(true)] + Trues(|frames| - 1) == Trues(|frames|);
    }
  }

  lemma {:induction false} CountTrues(n: nat)
    ensures Fold(Count, Trues(n)) == Some(IntV(n))
  {
    if n > 0 {
      CountTrues(n - 1);
      assert Trues(n)[1..] == Trues(n - 1);
    }
  }

  lemma Counted(src: Sources, scopes: seq<Frame>, group: seq<Frame>)
    requires |scopes| == 1
    ensures EvalExpr(src, Agg(Count, TRUE), scopes, group) == Some(IntV(|group|))
  {
    hide EvalOver, Fold;
    assert scopes[1..] == [];
    TrueOver(src, group);
    CountTrues(|group|);
  }

  /** A query whose rows all fall into one group returns one row. */
  lemma OneGroup(src: Sources, q: Query, a: Source, row: Row, cols: seq<string>)
    requires q.Select? && q.from == From.Base(0) && q.where_ == TRUE && q.having == TRUE && q.grouped
      && q.groupBy == NoExprs && q.orderBy == NoExprs && !q.distinct && q.limit.None?
    requires |src.nodes| > 0 && src.nodes[0] == Some(a)
    requires forall current :: var frames := BindRows(a.alias, a.rel.cols, a.rel.rows);
      ProjectRow(src, q.items, Context(current, frames), []) == Some(row)
    requires ItemCols(q.items, [(a.alias, a.rel.cols)]) == Some(cols)
    ensures EvalQuery(src, q, []) == Some(Relation(cols, [row]))
  {
    hide Filter, Keep, ProjectRow, SortKeys, Finish, Zip, Blanks, ItemCols;
    var frames := BindRows(a.alias, a.rel.cols, a.rel.rows);
    var sc := [(a.alias, a.rel.cols)];
    FilterTrue(src, frames);
    var contexts := GroupContexts([([], frames)], NullFrame(sc));
    assert EvalFrom(src, q.from, []) == Some(Frames(sc, frames));
    assert Contexts(src, q.groupBy, true, Frames(sc, frames), []) == Some(contexts);
    KeepTrue(src, contexts);
    NoSortKeys(src, contexts);
    assert contexts == [Context(contexts[0].current, frames)] && [row] + [] == [row];
    assert contexts[1..] == [] && ProjectAll(src, q.items, contexts[1..], []) == Some([]);
    assert ProjectAll(src, q.items, contexts, []) == Some([row]);
    Unfinished([row]);
  }

  lemma CountAllCounts(src: Sources, a: Source)
    requires |src.nodes| > 0 && src.nodes[0] == Some(a)
    ensures EvalQuery(src, CountAll(), []) == Some(Relation(["n"], [[IntV(|a.rel.rows|)]]))
  {
    hide EvalExpr;
    var q, frames, sc := CountAll(), BindRows(a.alias, a.rel.cols, a.rel.rows), [(a.alias, a.rel.cols)];
    forall current
      ensures ProjectRow(src, q.items, Context(current, frames), []) == Some([IntV(|a.rel.rows|)])
    {
      Counted(src, [current] + [], frames);
      assert [IntV(|a.rel.rows|)] + [] == [IntV(|a.rel.rows|)];
      assert ProjectRow(src, NoItems, Context(current, frames), []) == Some([]);
    }
    assert ItemCols(NoItems, sc) == Some([]) && ["n"] + [] == ["n"];
    OneGroup(src, q, a, [IntV(|a.rel.rows|)], ["n"]);
  }

  /** What a statement given as text sees: the rows of every tenant. */
  lemma TextSeesEveryRow(
    db: Database, at: map<string, nat>, keys: map<string, string>, tenant: string, table: string)
    requires table in SCOPED && Tenanted(db, at)
    ensures Servable([Plain(table)])
    ensures Run(db, keys, tenant, Repointed([Plain(table)]), CountsText(table))
         == Some(Relation(["seen", "mine"], [[IntV(|db[table].rows|), IntV(|Cut(db, at, tenant)[table].rows|)]]))
  {
    hide EvalExpr, EvalQuery, QueryCols, Cut, Tabular, OnlyAt, WithScope;
    assert Lower("customers") == "customers" && Lower("invoices") == "invoices";
    var ts, q := [Plain(table)], CountsText(table);
    ScopeIsCut(db, at, tenant);
    SourcesOnlyFromCut(db, at, tenant, ts, 0);
    var src := Sources(NodesOf(WithScope(db, tenant).value, Repointed(ts)), db);
    var raw := Sources(NodesOf(db, ts), db);
    CountAllCounts(raw, raw.nodes[0].value);
    CountsTextRow(src, src.nodes[0].value, table, |db[table].rows|);
    CountsTextNames(src, KeysOf(keys - SCOPED.Values, Repointed(ts)), table);
  }

  lemma CountsTextRow(src: Sources, a: Source, table: string, seen: nat)
    requires |src.nodes| > 0 && src.nodes[0] == Some(a)
    requires EvalQuery(Sources(NodesOf(src.raw, [Plain(table)]), src.raw), CountAll(), [])
          == Some(Relation(["n"], [[IntV(seen)]]))
    ensures EvalQuery(src, CountsText(table), [])
         == Some(Relation(["seen", "mine"], [[IntV(seen), IntV(|a.rel.rows|)]]))
  {
    hide EvalQuery;
    var q, frames, sc := CountsText(table), BindRows(a.alias, a.rel.cols, a.rel.rows), [(a.alias, a.rel.cols)];
    var text, row := RunText([Plain(table)], CountAll()), [IntV(seen), IntV(|a.rel.rows|)];
    forall current
      ensures ProjectRow(src, q.items, Context(current, frames), []) == Some(row)
    {
      var scopes := [current] + [];
      assert EvalExpr(src, text, scopes, frames) == Some(IntV(seen));
      hide EvalExpr;
      Counted(src, scopes, frames);
      assert ProjectRow(src, NoItems, Context(current, frames), []) == Some([]);
      assert [IntV(|a.rel.rows|)] + [] == [IntV(|a.rel.rows|)];
      assert ProjectRow(src, q.items.rest, Context(current, frames), []) == Some([IntV(|a.rel.rows|)]);
      assert [IntV(seen)] + [IntV(|a.rel.rows|)] == row;
    }
    assert ["mine"] + [] == ["mine"] && ["seen"] + ["mine"] == ["seen", "mine"];
    assert ItemCols(NoItems, sc) == Some([]) && ItemCols(q.items.rest, sc) == Some(["mine"]);
    assert ItemCols(q.items, sc) == Some(["seen", "mine"]);
    OneGroup(src, q, a, row, ["seen", "mine"]);
  }

  lemma CountsTextNames(src: Sources, keys: KeyColumns, table: string)
    requires |src.nodes| > 0 && src.nodes[0].Some?
    ensures QueryCols(src, keys, CountsText(table), []).Some?
  {
    var q, s := CountsText(table), src.nodes[0].value;
    var sc := [(s.alias, s.rel.cols)];
    var out := Scope(sc, RuleOf(sc, FromKeys(keys, q.from), true, NoExprs));
    assert ExprNames(src, keys, TRUE, [Scope(sc, Anything)] + []);
    assert ExprNames(src, keys, TRUE, [out] + []);
    assert ItemsNames(src, keys, NoItems, out, []);
    assert ExprNames(src, keys, Agg(Count, TRUE), [out] + []);
    assert ItemsNames(src, keys, q.items.rest, out, []);
    assert ExprNames(src, keys, q.items.e, [out] + []);
    assert ItemCols(NoItems, sc) == Some([]) && ItemCols(q.items.rest, sc).Some?;
  }

  /** Counterexample, for every database: one more row of another tenant leaves the tenant's slice as it was and changes
      the answer. */
  lemma TextTellsApart(
    db: Database, at: map<string, nat>, keys: map<string, string>, tenant: string, table: string, row: Row)
    requires table in SCOPED && Tenanted(db, at)
    requires |row| == |db[table].cols| && row[at[table]] != TextV(tenant)
    ensures var other := db[table := Relation(db[table].cols, [row] + db[table].rows)];
      && Tenanted(other, at) && Cut(other, at, tenant) == Cut(db, at, tenant)
      && Servable([Plain(table)])
      && Run(db, keys, tenant, Repointed([Plain(table)]), CountsText(table))
           != Run(other, keys, tenant, Repointed([Plain(table)]), CountsText(table))
  {
    hide Run;
    var other := db[table := Relation(db[table].cols, [row] + db[table].rows)];
    assert Tabular(other[table]);
    assert ([row] + db[table].rows)[1..] == db[table].rows;
    assert Owned(other[table].rows, at[table], tenant) == [] + Owned(db[table].rows, at[table], tenant);
    assert Slice(other[table], at[table], tenant) == Slice(db[table], at[table], tenant);
    hide Slice, Owned, Tabular;
    assert Cut(other, at, tenant) == Cut(db, at, tenant);
    TextSeesEveryRow(db, at, keys, tenant, table);
    TextSeesEveryRow(other, at, keys, tenant, table);
  }

  // ---- Names ----

  /** SELECT table.* FROM table */
  function OwnStar(table: string): Query {
    Select(QualifiedStar(table, NoItems), From.Base(0), TRUE, false, NoExprs, TRUE, false, NoExprs, None)
  }

  lemma {:induction false} OwnStarRows(src: Sources, alias: string, cols: seq<string>, rows: seq<Row>)
    ensures ProjectAll(src, OwnStar(alias).items, Solo(BindRows(alias, cols, rows)), []) == Some(rows)
  {
    if rows != [] {
      var cs := Solo(BindRows(alias, cols, rows));
      assert cs[1..] == Solo(BindRows(alias, cols, rows[1..]));
      OwnStarRows(src, alias, cols, rows[1..]);
      assert AliasVals(cs[0].current, alias) == Some(rows[0]);
      assert ProjectRow(src, NoItems, cs[0], []) == Some([]) && rows[0] + [] == rows[0];
      assert [rows[0]] + rows[1..] == rows;
    }
  }

  lemma OwnStarAnswers(src: Sources, keys: KeyColumns, table: string, rel: Relation)
    requires src.nodes == [Some(Source(table, rel))]
    ensures Answer(src, keys, OwnStar(table)) == Some(rel)
  {
    hide Filter, Keep, ProjectAll, SortKeys, Finish, Zip, Blanks;
    var q, frames, sc := OwnStar(table), BindRows(table, rel.cols, rel.rows), [(table, rel.cols)];
    FilterTrue(src, frames);
    KeepTrue(src, Solo(frames));
    OwnStarRows(src, table, rel.cols, rel.rows);
    NoSortKeys(src, Solo(frames));
    Unfinished(rel.rows);
    assert EvalFrom(src, q.from, []) == Some(Frames(sc, frames));
    assert ItemCols(NoItems, sc) == Some([]) && AliasCols(sc, table) == Some(rel.cols) && rel.cols + [] == rel.cols;
    assert ItemCols(q.items, sc) == Some(rel.cols);
    assert EvalQuery(src, q, []) == Some(rel);
    assert InSchema(sc, table) by { assert sc[0].0 == table; }
    var scope := Scope(sc, Anything);
    assert ItemsNames(src, keys, NoItems, scope, []) && ItemsNames(src, keys, q.items, scope, []);
    assert ExprNames(src, keys, TRUE, [scope] + []);
    assert QueryCols(src, keys, q, []) == Some(rel.cols);
  }

  lemma OwnStarAvoids(ban: Ban, table: string)
    ensures Avoids(ban, OwnStar(table)) <==> table !in ban.quals
  {
    var q := OwnStar(table);
    assert ItemsAvoid(ban, NoItems) && FromAvoids(ban, q.from);
    assert ExprAvoids(ban, TRUE) && ExprsAvoid(ban, NoExprs);
    assert ItemsAvoid(ban, q.items) <==> table !in ban.quals;
  }

  /** Counterexample, for either table, every database and every tenant, even one without rows: `SELECT t.* FROM t` is
      the whole slice before the rewrite and an error after it, since the table is renamed and given no alias. */
  lemma OwnNameIsLost(db: Database, at: map<string, nat>, keys: map<string, string>, tenant: string, table: string)
    requires table in SCOPED && Tenanted(db, at)
    ensures Lower(table) == table
    ensures OnSlice(db, at, keys, tenant, [Plain(table)], OwnStar(table)) == Some(Cut(db, at, tenant)[table])
    ensures Run(db, keys, tenant, Repointed([Plain(table)]), OwnStar(table)).None?
  {
    hide EvalQuery, QueryCols, Slice, Tabular, OnlyAt, WithScope;
    var ts, q := [Plain(table)], OwnStar(table);
    assert Lower("customers") == "customers" && Lower("invoices") == "invoices";
    OwnStarAnswers(CutSources(db, at, tenant, ts), KeysOf(keys, ts), table, Cut(db, at, tenant)[table]);
    assert ts[0] in ts && table in Bare(ts).Keys;
    hide Avoids;
    OwnStarAvoids(Ban({}, Names(Bare(ts)), false), table);
    OwnStarAvoids(Ban(Bare(ts).Keys, {}, false), table);
    OwnStarAvoids(Ban({}, {}, true), table);
    MeaningKeptIff(db, at, keys, tenant, ts, q);
  }

  /** SELECT true AS found FROM the first table JOIN the second ON true */
  function Pairs(): Query {
    Select(Column(TRUE, "found", NoItems), Join(From.Base(0), From.Base(1), false, TRUE), TRUE,
           false, NoExprs, TRUE, false, NoExprs, None)
  }

  lemma {:induction false} JoinTrue(src: Sources, ls: seq<Frame>, r: Frames)
    ensures JoinRows(src, TRUE, false, ls, r, []).Some?
  {
    if ls != [] {
      FilterTrue(src, Pairings(ls[0], r.frames));
      JoinTrue(src, ls[1..], r);
    }
  }

  lemma {:induction false} FoundEverywhere(src: Sources, cs: seq<Context>)
    ensures ProjectAll(src, Pairs().items, cs, []).Some?
  {
    if cs != [] {
      FoundEverywhere(src, cs[1..]);
      var scopes := [cs[0].current] + [];
      assert EvalExpr(src, TRUE, scopes, cs[0].group) == Some(BoolV(true));
      assert ProjectRow(src, NoItems, cs[0], []) == Some([]);
    }
  }

  lemma PairsAnswer(src: Sources, keys: KeyColumns, a: Source, b: Source)
    requires src.nodes == [Some(a), Some(b)] && a.alias != b.alias
    ensures Answer(src, keys, Pairs()).Some?
  {
    hide Filter, Keep, ProjectAll, SortKeys, Finish, Zip, Blanks, JoinRows;
    var q, l, r := Pairs(), BindRows(a.alias, a.rel.cols, a.rel.rows), BindRows(b.alias, b.rel.cols, b.rel.rows);
    var left, right := [(a.alias, a.rel.cols)], [(b.alias, b.rel.cols)];
    var sc := left + right;
    assert !ShareAlias(left, right);
    JoinTrue(src, l, Frames(right, r));
    assert EvalFrom(src, From.Base(0), []) == Some(Frames(left, l))
      && EvalFrom(src, From.Base(1), []) == Some(Frames(right, r));
    var frames := EvalFrom(src, q.from, []).value.frames;
    assert EvalFrom(src, q.from, []).value.schema == sc;
    FilterTrue(src, frames);
    KeepTrue(src, Solo(frames));
    FoundEverywhere(src, Solo(frames));
    NoSortKeys(src, Solo(frames));
    assert ItemCols(NoItems, sc) == Some([]) && ItemCols(q.items, sc).Some?;
    assert EvalQuery(src, q, []).Some?;
    var scope := Scope(sc, Anything);
    assert FromSchema(src, keys, From.Base(0), []) == Some(left)
      && FromSchema(src, keys, From.Base(1), []) == Some(right);
    assert ExprNames(src, keys, TRUE, [scope] + []);
    assert FromSchema(src, keys, q.from, []) == Some(sc);
    assert ItemsNames(src, keys, NoItems, scope, []) && ItemsNames(src, keys, q.items, scope, []);
    assert QueryCols(src, keys, q, []).Some?;
  }

  /** Why aliases must be a query's own: one that is called like a table without an alias clashes with it before the
      rewrite and no longer does after it, whatever the tables and their rows. */
  lemma ClashIsLost(
    db: Database, at: map<string, nat>, keys: map<string, string>, tenant: string, table: string, other: string)
    requires table in SCOPED && other in SCOPED && Tenanted(db, at)
    ensures var ts := [Plain(table), TableRef("", other, false, Some(table))];
      && Servable(ts)
      && OnSlice(db, at, keys, tenant, ts, Pairs()).None?
      && Run(db, keys, tenant, Repointed(ts), Pairs()).Some?
  {
    hide EvalQuery, Slice, Tabular, OnlyAt, WithScope, ExprNames, ItemsNames;
    assert Lower("customers") == "customers" && Lower("invoices") == "invoices";
    var ts := [Plain(table), TableRef("", other, false, Some(table))];
    var here, theirs := CutSources(db, at, tenant, ts), KeysOf(keys, ts);
    var left, right := FromSchema(here, theirs, From.Base(0), []), FromSchema(here, theirs, From.Base(1), []);
    assert left.Some? && right.Some? && left.value[0].0 == right.value[0].0 == table;
    assert ShareAlias(left.value, right.value);
    assert FromSchema(here, theirs, Pairs().from, []).None?;
    SourcesOnlyFromCut(db, at, tenant, ts, 0);
    SourcesOnlyFromCut(db, at, tenant, ts, 1);
    hide Answer;
    var there := Sources(NodesOf(WithScope(db, tenant).value, Repointed(ts)), db);
    assert there.nodes == [there.nodes[0], there.nodes[1]];
    PairsAnswer(there, KeysOf(keys - SCOPED.Values, Repointed(ts)), there.nodes[0].value, there.nodes[1].value);
  }

  // ---- Keys ----

  /** SELECT alias.column FROM table alias GROUP BY alias.key */
  function GroupsByKey(alias: string, key: string, column: string): Query {
    Select(Column(Col(Some(alias), column), column, NoItems), From.Base(0), TRUE,
           true, MoreExprs(Col(Some(alias), key), NoExprs), TRUE, false, NoExprs, None)
  }

  predicate IsRow(f: Frame, alias: string, cols: seq<string>) {
    |f| == 1 && f[0].alias == alias && f[0].cols == cols && |f[0].vals| == |cols|
  }

  predicate RowGroups(gs: seq<(Row, seq<Frame>)>, alias: string, cols: seq<string>) {
    forall i :: 0 <= i < |gs| ==> gs[i].1 != [] && IsRow(gs[i].1[0], alias, cols)
  }

  lemma ColumnOfRow(src: Sources, f: Frame, alias: string, cols: seq<string>, name: string, at: nat, group: seq<Frame>)
    requires IsRow(f, alias, cols) && OnlyAt(cols, name, at)
    ensures EvalExpr(src, Col(Some(alias), name), [f] + [], group).Some?
  {
    ResolveOnly(alias, cols, f[0].vals, Some(alias), name, at);
    assert f == [Binding(alias, cols, f[0].vals)] && [f] + [] == [f];
    hide Resolve;
  }

  lemma {:induction false} StillRowGroups(
      gs: seq<(Row, seq<Frame>)>, key: Row, f: Frame, alias: string, cols: seq<string>)
    requires RowGroups(gs, alias, cols) && IsRow(f, alias, cols)
    ensures RowGroups(AddToGroup(gs, key, f), alias, cols)
  {
    hide IsRow;
    if gs != [] && gs[0].0 != key {
      assert forall i :: 0 <= i < |gs[1..]| ==> gs[1..][i] == gs[i + 1];
      StillRowGroups(gs[1..], key, f, alias, cols);
    }
  }

  lemma {:induction false} GroupsOfRows(
    src: Sources, alias: string, cols: seq<string>, rows: seq<Row>, key: string, at: nat)
    requires OnlyAt(cols, key, at) && forall i :: 0 <= i < |rows| ==> |rows[i]| == |cols|
    ensures var gs := GroupRows(src, MoreExprs(Col(Some(alias), key), NoExprs), BindRows(alias, cols, rows), []);
      gs.Some? && RowGroups(gs.value, alias, cols)
  {
    var frames, items := BindRows(alias, cols, rows), MoreExprs(Col(Some(alias), key), NoExprs);
    if rows != [] {
      var n := |rows| - 1;
      assert frames[..n] == BindRows(alias, cols, rows[..n]);
      GroupsOfRows(src, alias, cols, rows[..n], key, at);
      ColumnOfRow(src, frames[n], alias, cols, key, at, [frames[n]]);
      hide EvalExpr, RowGroups, AddToGroup;
      var scopes := [frames[n]] + [];
      assert EvalKeys(src, NoExprs, scopes, [frames[n]]) == Some([]);
      var k := EvalKeys(src, items, scopes, [frames[n]]);
      assert k.Some?;
      StillRowGroups(GroupRows(src, items, frames[..n], []).value, k.value, frames[n], alias, cols);
    }
  }

  lemma {:induction false} ProjectRows(
    src: Sources, alias: string, cols: seq<string>, cs: seq<Context>, column: string, at: nat)
    requires OnlyAt(cols, column, at) && forall i :: 0 <= i < |cs| ==> IsRow(cs[i].current, alias, cols)
    ensures ProjectAll(src, Column(Col(Some(alias), column), column, NoItems), cs, []).Some?
  {
    if cs != [] {
      ProjectRows(src, alias, cols, cs[1..], column, at);
      ColumnOfRow(src, cs[0].current, alias, cols, column, at, cs[0].group);
      hide EvalExpr, IsRow;
      assert ProjectRow(src, NoItems, cs[0], []) == Some([]);
    }
  }

  lemma KeyedRowsAnswer(src: Sources, alias: string, rel: Relation, key: string, k: nat, column: string, c: nat)
    requires src.nodes == [Some(Source(alias, rel))] && Tabular(rel)
    requires OnlyAt(rel.cols, key, k) && OnlyAt(rel.cols, column, c)
    ensures EvalQuery(src, GroupsByKey(alias, key, column), []).Some?
  {
    hide Filter, Keep, ProjectAll, SortKeys, Finish, Zip, Blanks, GroupRows, OnlyAt;
    var q, frames, sc := GroupsByKey(alias, key, column), BindRows(alias, rel.cols, rel.rows), [(alias, rel.cols)];
    FilterTrue(src, frames);
    GroupsOfRows(src, alias, rel.cols, rel.rows, key, k);
    var contexts := GroupContexts(GroupRows(src, q.groupBy, frames, []).value, NullFrame(sc));
    assert forall i :: 0 <= i < |contexts| ==> IsRow(contexts[i].current, alias, rel.cols);
    assert EvalFrom(src, q.from, []) == Some(Frames(sc, frames));
    assert Contexts(src, q.groupBy, true, Frames(sc, frames), []) == Some(contexts);
    KeepTrue(src, contexts);
    ProjectRows(src, alias, rel.cols, contexts, column, c);
    NoSortKeys(src, contexts);
    assert ItemCols(NoItems, sc) == Some([]) && ItemCols(q.items, sc).Some?;
  }

  /** The key decides whether the grouping determines the other column. */
  lemma KeyDecides(
    src: Sources, keys: KeyColumns, alias: string, rel: Relation, key: string, k: nat, column: string, c: nat)
    requires src.nodes == [Some(Source(alias, rel))] && |keys| == 1 && (keys[0].Some? ==> keys[0].value == key)
    requires OnlyAt(rel.cols, key, k) && OnlyAt(rel.cols, column, c) && c != k
    ensures QueryCols(src, keys, GroupsByKey(alias, key, column), []).Some? <==> keys[0].Some?
  {
    var q, sc := GroupsByKey(alias, key, column), [(alias, rel.cols)];
    OneSpot(alias, rel.cols, Some(alias), key, k);
    OneSpot(alias, rel.cols, Some(alias), column, c);
    FoundAt(rel.cols, key, k);
    assert key != column;
    hide NameCount, SpotOf, ColumnAt;
    assert ItemSpots(sc, NoExprs) == {} && ItemSpots(sc, q.groupBy) == {(0, k)};
    assert FromKeys(keys, q.from) == [keys[0]];
    var rows, out := Scope(sc, Anything), Scope(sc, RuleOf(sc, [keys[0]], true, q.groupBy));
    assert KeyIn(sc, [keys[0]], {(0, k)}, 0) <==> keys[0].Some?;
    assert (0, c) in out.rule.spots <==> keys[0].Some?;
    assert !Listed(q.items.e, NoExprs) && !Listed(q.items.e, q.groupBy);
    assert ExprNames(src, keys, q.items.e, [out] + []) <==> keys[0].Some?;
    assert ExprNames(src, keys, q.groupBy.head, [rows] + []) && ExprsNames(src, keys, NoExprs, [rows] + []);
    assert ExprNames(src, keys, TRUE, [rows] + []) && ExprNames(src, keys, TRUE, [out] + []);
    assert ItemsNames(src, keys, NoItems, out, []);
    assert ItemsNames(src, keys, q.items, out, []) <==> keys[0].Some?;
    assert ItemCols(NoItems, sc) == Some([]) && ItemCols(q.items, sc).Some?;
  }

  lemma GroupsByKeyAvoids(alias: string, key: string, column: string, texts: bool)
    ensures Avoids(Ban({}, {}, texts), GroupsByKey(alias, key, column))
  {
    var q, ban := GroupsByKey(alias, key, column), Ban({}, {}, texts);
    assert ItemsAvoid(ban, NoItems) && ItemsAvoid(ban, q.items) && FromAvoids(ban, q.from) && ExprAvoids(ban, TRUE);
    assert ExprsAvoid(ban, NoExprs) && ExprsAvoid(ban, q.groupBy);
  }

  /** Counterexample, for any table with a declared key and another column, under any alias, for every database and
      every tenant: grouping by the key and reading the other column has an answer before the rewrite and is refused
      after it, since the tables that the WITH clauses define have no keys. */
  lemma GroupedByKeyIsLost(
    db: Database, at: map<string, nat>, keys: map<string, string>, tenant: string, table: string, alias: string,
    k: nat, column: string, c: nat)
    requires table in SCOPED && Tenanted(db, at) && table in keys
    requires OnlyAt(db[table].cols, keys[table], k) && OnlyAt(db[table].cols, column, c) && c != k
    ensures var ts, q := [TableRef("", table, false, Some(alias))], GroupsByKey(alias, keys[table], column);
      && Servable(ts) && QualifiesByAlias(ts, q) && Textless(q)
      && OnSlice(db, at, keys, tenant, ts, q).Some?
      && Run(db, keys, tenant, Repointed(ts), q).None?
  {
    hide Answer, EvalQuery, QueryCols, Slice, OnlyAt, WithScope, Avoids, Tenanted, Cut, CutSources;
    assert Lower("customers") == "customers" && Lower("invoices") == "invoices";
    var ts, q := [TableRef("", table, false, Some(alias))], GroupsByKey(alias, keys[table], column);
    assert Bare(ts) == map[] && Names(Bare(ts)) == {};
    GroupsByKeyAvoids(alias, keys[table], column, false);
    GroupsByKeyAvoids(alias, keys[table], column, true);
    KeyedOnSlice(db, at, keys, tenant, table, alias, k, column, c);
    MeaningKeptIff(db, at, keys, tenant, ts, q);
  }

  lemma KeyedOnSlice(
    db: Database, at: map<string, nat>, keys: map<string, string>, tenant: string, table: string, alias: string,
    k: nat, column: string, c: nat)
    requires table in SCOPED && Tenanted(db, at) && table in keys && Lower(table) == table
    requires OnlyAt(db[table].cols, keys[table], k) && OnlyAt(db[table].cols, column, c) && c != k
    ensures var ts, q := [TableRef("", table, false, Some(alias))], GroupsByKey(alias, keys[table], column);
      OnSlice(db, at, keys, tenant, ts, q).Some? && !NeedsNoKeys(db, at, tenant, ts, q)
  {
    OwnedKeepsShape(db[table], at[table], tenant);
    SliceHasColumns(db[table], at[table], tenant);
    hide EvalQuery, QueryCols, Slice, OnlyAt, Lower;
    var ts := [TableRef("", table, false, Some(alias))];
    var here, rel := CutSources(db, at, tenant, ts), Cut(db, at, tenant)[table];
    KeyedRowsAnswer(here, alias, rel, keys[table], k, column, c);
    KeyDecides(here, KeysOf(keys, ts), alias, rel, keys[table], k, column, c);
    KeyDecides(here, NoKeys(1), alias, rel, keys[table], k, column, c);
  }

  lemma SliceHasColumns(rel: Relation, at: nat, tenant: string)
    requires Tabular(rel) && at < |rel.cols|
    ensures Slice(rel, at, tenant).cols == rel.cols
  {
  }

  lemma OwnedKeepsShape(rel: Relation, at: nat, tenant: string)
    requires Tabular(rel) && at < |rel.cols|
    ensures Tabular(Slice(rel, at, tenant))
    decreases |rel.rows|
  {
    if rel.rows != [] { OwnedKeepsShape(Relation(rel.cols, rel.rows[1..]), at, tenant); }
  }

  // ---- Quoted names ----

  /** SELECT * FROM the first table */
  function All(): Query { Select(Star(NoItems), From.Base(0), TRUE, false, NoExprs, TRUE, false, NoExprs, None) }

  lemma AllAnswers(src: Sources, keys: KeyColumns, a: Source)
    requires src.nodes == [Some(a)]
    ensures Answer(src, keys, All()) == Some(a.rel)
  {
    hide Filter, Keep, ProjectAll, SortKeys, Finish, Zip, Blanks, ItemCols;
    var q, frames, sc := All(), BindRows(a.alias, a.rel.cols, a.rel.rows), [(a.alias, a.rel.cols)];
    FilterTrue(src, frames);
    KeepTrue(src, Solo(frames));
    StarRows(src, a.alias, a.rel.cols, a.rel.rows);
    NoSortKeys(src, Solo(frames));
    Unfinished(a.rel.rows);
    StarCols(a.alias, a.rel.cols);
    assert EvalFrom(src, q.from, []) == Some(Frames(sc, frames));
    assert EvalQuery(src, q, []) == Some(a.rel);
    var scope := Scope(sc, Anything);
    assert ItemsNames(src, keys, NoItems, scope, []) && ItemsNames(src, keys, q.items, scope, []);
    assert ExprNames(src, keys, TRUE, [scope] + []);
    assert QueryCols(src, keys, q, []) == Some(a.rel.cols);
  }

  /** Counterexample, for every quoted name that only in lower case is the name of a table: it means nothing before the
      rewrite, and the tenant's slice after it. */
  lemma QuotedNameIsFound(
    db: Database, at: map<string, nat>, keys: map<string, string>, tenant: string, name: string)
    requires Lower(name) in SCOPED && name !in SCOPED && Tenanted(db, at)
    ensures var ts := [TableRef("", name, true, None)];
      && Servable(ts)
      && OnSlice(db, at, keys, tenant, ts, All()).None?
      && Run(db, keys, tenant, Repointed(ts), All()) == Some(Cut(db, at, tenant)[Lower(name)])
  {
    hide EvalQuery, Slice, Tabular, OnlyAt, WithScope, Lower;
    var ts := [TableRef("", name, true, None)];
    SourcesOnlyFromCut(db, at, tenant, ts, 0);
    assert FromSchema(CutSources(db, at, tenant, ts), KeysOf(keys, ts), From.Base(0), []).None?;
    hide Answer;
    var there := Sources(NodesOf(WithScope(db, tenant).value, Repointed(ts)), db);
    assert there.nodes == [there.nodes[0]];
    AllAnswers(there, KeysOf(keys - SCOPED.Values, Repointed(ts)), there.nodes[0].value);
  }
}
