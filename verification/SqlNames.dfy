/** What a database checks of a statement before it reads a row: under other names for its tables,
    by the names nothing is called by, and with fewer keys declared. */
module SqlNames {
  import opened Base
  import opened SqlModel
  import opened SqlRenaming

  // ---- Renaming and what is checked before a row is read ----

  function RenScope(ren: Renaming, scope: Scope): Scope { Scope(RenSchema(ren, scope.sc), scope.rule) }

  function RenScopes(ren: Renaming, scopes: seq<Scope>): seq<Scope> {
    seq(|scopes|, i requires 0 <= i < |scopes| => RenScope(ren, scopes[i]))
  }

  lemma ScopesCons(ren: Renaming, scope: Scope, outer: seq<Scope>)
    ensures RenScopes(ren, [scope] + outer) == [RenScope(ren, scope)] + RenScopes(ren, outer)
  {
    assert forall i :: 0 < i < |outer| + 1 ==> ([scope] + outer)[i] == outer[i - 1];
  }

  lemma ScopesSplit(ren: Renaming, scopes: seq<Scope>)
    requires scopes != []
    ensures RenScopes(ren, scopes) == [RenScope(ren, scopes[0])] + RenScopes(ren, scopes[1..])
    ensures RenScopes(ren, scopes)[1..] == RenScopes(ren, scopes[1..])
  {}

  lemma SameCount(ren: Renaming, sc: Schema, qual: Option<string>, name: string)
    requires qual.Some? ==> Free(ren, qual.value)
    ensures NameCount(RenSchema(ren, sc), qual, name) == NameCount(sc, qual, name)
    ensures SpotOf(RenSchema(ren, sc), qual, name) == SpotOf(sc, qual, name)
  {
    if sc != [] {
      assert RenSchema(ren, sc)[1..] == RenSchema(ren, sc[1..]);
      SameCount(ren, sc[1..], qual, name);
    }
  }

  lemma SameInSchema(ren: Renaming, sc: Schema, alias: string)
    requires Free(ren, alias)
    ensures InSchema(RenSchema(ren, sc), alias) == InSchema(sc, alias)
  {
    assert forall i :: 0 <= i < |sc| ==> (RenSchema(ren, sc)[i].0 == alias <==> sc[i].0 == alias);
  }

  lemma SameAllUsable(ren: Renaming, scope: Scope, alias: Option<string>)
    requires alias.Some? ==> Free(ren, alias.value)
    ensures AllUsable(RenScope(ren, scope), alias) == AllUsable(scope, alias)
  {
    var sc := RenSchema(ren, scope.sc);
    assert forall i :: 0 <= i < |sc| ==> sc[i].1 == scope.sc[i].1;
    assert alias.Some? ==> forall i :: 0 <= i < |sc| ==> (sc[i].0 == alias.value <==> scope.sc[i].0 == alias.value);
    hide Usable, Called;
  }

  lemma SameResolvable(ren: Renaming, scopes: seq<Scope>, qual: Option<string>, name: string)
    requires qual.Some? ==> Free(ren, qual.value)
    ensures Resolvable(RenScopes(ren, scopes), qual, name) == Resolvable(scopes, qual, name)
  {
    if scopes != [] {
      ScopesSplit(ren, scopes);
      SameCount(ren, scopes[0].sc, qual, name);
      if qual.Some? { SameInSchema(ren, scopes[0].sc, qual.value); }
      SameResolvable(ren, scopes[1..], qual, name);
    }
  }

  lemma SameItemSpots(ren: Renaming, same: bool, sc: Schema, items: Exprs)
    requires ExprsFree(ren, same, items)
    ensures ItemSpots(RenSchema(ren, sc), items) == ItemSpots(sc, items)
  {
    if items.MoreExprs? {
      assert ExprFree(ren, same, items.head);
      if items.head.Col? { SameCount(ren, sc, items.head.qual, items.head.name); }
      SameItemSpots(ren, same, sc, items.tail);
    }
  }

  lemma SameRule(ren: Renaming, same: bool, sc: Schema, keys: KeyColumns, grouped: bool, groupBy: Exprs)
    requires ExprsFree(ren, same, groupBy)
    ensures RuleOf(RenSchema(ren, sc), keys, grouped, groupBy) == RuleOf(sc, keys, grouped, groupBy)
  {
    SameItemSpots(ren, same, sc, groupBy);
    var spots, sc' := ItemSpots(sc, groupBy), RenSchema(ren, sc);
    forall i | 0 <= i < |sc|
      ensures sc'[i].1 == sc[i].1 && KeyIn(sc', keys, spots, i) == KeyIn(sc, keys, spots, i)
    {
    }
    assert Determined(sc', keys, spots) == Determined(sc, keys, spots) by { hide KeyIn; }
  }

  lemma {:induction false} SameExprNames(
    ren: Renaming, raw: Database, src: Sources, keys: KeyColumns, e: Expr, scopes: seq<Scope>)
    requires Apart(ren) && SourcesUnused(ren, src) && ExprFree(ren, raw == src.raw, e) && scopes != []
    ensures ExprNames(RenSources(ren, raw, src), keys, e, RenScopes(ren, scopes)) == ExprNames(src, keys, e, scopes)
    decreases e
  {
    hide Apart, SourcesUnused, RenSources, RenScopes, Resolvable, Names, Listed;
    ScopesSplit(ren, scopes);
    match e
    case Lit(_) =>
    case Col(qual, name) => FreeQualifier(ren, qual); SameResolvable(ren, scopes, qual, name);
    case Op(_, l, r) => SameExprNames(ren, raw, src, keys, l, scopes); SameExprNames(ren, raw, src, keys, r, scopes);
    case Not(x) => SameExprNames(ren, raw, src, keys, x, scopes);
    case IsNull(x) => SameExprNames(ren, raw, src, keys, x, scopes);
    case Agg(_, x) =>
      var inner := [Scope(scopes[0].sc, Anything)] + scopes[1..];
      ScopesCons(ren, inner[0], scopes[1..]);
      SameExprNames(ren, raw, src, keys, x, inner);
    case Scalar(q) => SameCols(ren, raw, src, keys, q, scopes);
    case Exists(q) => SameCols(ren, raw, src, keys, q, scopes);
    case InQuery(x, q) => SameExprNames(ren, raw, src, keys, x, scopes); SameCols(ren, raw, src, keys, q, scopes);
    case RunText(_, _) =>
  }

  lemma FreeQualifier(ren: Renaming, qual: Option<string>)
    ensures (qual.Some? ==> qual.value !in Names(ren)) <==> (qual.Some? ==> Free(ren, qual.value))
  {}

  lemma {:induction false} SameExprsNames(
    ren: Renaming, raw: Database, src: Sources, keys: KeyColumns, es: Exprs, scopes: seq<Scope>)
    requires Apart(ren) && SourcesUnused(ren, src) && ExprsFree(ren, raw == src.raw, es) && scopes != []
    ensures ExprsNames(RenSources(ren, raw, src), keys, es, RenScopes(ren, scopes)) == ExprsNames(src, keys, es, scopes)
    decreases es
  {
    hide Apart, SourcesUnused, RenSources, ExprNames, ExprAvoids;
    if es.MoreExprs? {
      SameExprNames(ren, raw, src, keys, es.head, scopes);
      SameExprsNames(ren, raw, src, keys, es.tail, scopes);
    }
  }

  lemma {:induction false} SameItemsNames(
    ren: Renaming, raw: Database, src: Sources, keys: KeyColumns, items: Items, scope: Scope, outer: seq<Scope>)
    requires Apart(ren) && SourcesUnused(ren, src) && ItemsFree(ren, raw == src.raw, items)
    ensures ItemsNames(RenSources(ren, raw, src), keys, items, RenScope(ren, scope), RenScopes(ren, outer))
         == ItemsNames(src, keys, items, scope, outer)
    decreases items
  {
    hide Apart, SourcesUnused, RenSources, RenScopes, RenSchema, ExprNames, ExprAvoids, InSchema, AllUsable;
    match items
    case NoItems =>
    case Column(e, _, rest) =>
      ScopesCons(ren, scope, outer);
      SameExprNames(ren, raw, src, keys, e, [scope] + outer);
      SameItemsNames(ren, raw, src, keys, rest, scope, outer);
    case Star(rest) =>
      SameAllUsable(ren, scope, None);
      SameItemsNames(ren, raw, src, keys, rest, scope, outer);
    case QualifiedStar(alias, rest) =>
      SameAllUsable(ren, scope, Some(alias));
      SameInSchema(ren, scope.sc, alias);
      SameItemsNames(ren, raw, src, keys, rest, scope, outer);
  }

  function RenKnown(ren: Renaming, sc: Option<Schema>): Option<Schema> {
    match sc
    case None => None
    case Some(x) => Some(RenSchema(ren, x))
  }

  lemma {:induction false} SameFromSchema(
    ren: Renaming, raw: Database, src: Sources, keys: KeyColumns, f: From, outer: seq<Scope>)
    requires Apart(ren) && SourcesUnused(ren, src) && FromFree(ren, raw == src.raw, f)
    ensures FromSchema(RenSources(ren, raw, src), keys, f, RenScopes(ren, outer))
         == RenKnown(ren, FromSchema(src, keys, f, outer))
    ensures FromSchema(src, keys, f, outer).Some? ==> SchemaUnused(ren, FromSchema(src, keys, f, outer).value)
    decreases f
  {
    hide Apart, QueryCols, Avoids, ExprNames, ExprAvoids, ShareAlias, RenScopes;
    match f
    case Nothing => assert RenSchema(ren, []) == [];
    case Base(node) =>
      if node < |src.nodes| && src.nodes[node].Some? {
        var s := src.nodes[node].value;
        assert RenSchema(ren, [(s.alias, s.rel.cols)]) == [(Called(ren, s.alias), s.rel.cols)];
      }
    case Derived(q, alias) =>
      SameCols(ren, raw, src, keys, q, outer);
      var cols := QueryCols(src, keys, q, outer);
      if cols.Some? {
        assert RenSchema(ren, [(alias, cols.value)]) == [(alias, cols.value)];
      }
    case Join(l, r, _, on) =>
      SameFromSchema(ren, raw, src, keys, l, outer);
      SameFromSchema(ren, raw, src, keys, r, outer);
      var a, b := FromSchema(src, keys, l, outer), FromSchema(src, keys, r, outer);
      if a.Some? && b.Some? {
        var scope := Scope(a.value + b.value, Anything);
        SameCollision(ren, a.value, b.value);
        SchemaJoin(ren, a.value, b.value);
        ScopesCons(ren, scope, outer);
        SameExprNames(ren, raw, src, keys, on, [scope] + outer);
      }
  }

  /** A query whose qualifiers are free has the same columns, or is refused, under either naming. */
  lemma {:induction false} SameCols(
    ren: Renaming, raw: Database, src: Sources, keys: KeyColumns, q: Query, outer: seq<Scope>)
    requires Apart(ren) && SourcesUnused(ren, src) && QueryFree(ren, raw == src.raw, q)
    ensures QueryCols(RenSources(ren, raw, src), keys, q, RenScopes(ren, outer)) == QueryCols(src, keys, q, outer)
    decreases q
  {
    hide Apart, SourcesUnused, RenSources, RenScopes, RenSchema, FromSchema, ExprNames, ExprsNames, ItemsNames,
      ItemCols, ItemsAvoid, FromAvoids, ExprAvoids, ExprsAvoid, RuleOf, FromKeys;
    match q
    case Union(l, r, _) =>
      SameCols(ren, raw, src, keys, l, outer);
      SameCols(ren, raw, src, keys, r, outer);
    case Select(items, from, where_, grouped, groupBy, having, _, orderBy, _) =>
      SameFromSchema(ren, raw, src, keys, from, outer);
      var sc := FromSchema(src, keys, from, outer);
      if sc.Some? {
        SameRule(ren, raw == src.raw, sc.value, FromKeys(keys, from), grouped, groupBy);
        var rows := Scope(sc.value, Anything);
        var out := Scope(sc.value, RuleOf(sc.value, FromKeys(keys, from), grouped, groupBy));
        ScopesCons(ren, rows, outer);
        ScopesCons(ren, out, outer);
        SameExprNames(ren, raw, src, keys, where_, [rows] + outer);
        SameExprsNames(ren, raw, src, keys, groupBy, [rows] + outer);
        SameExprNames(ren, raw, src, keys, having, [out] + outer);
        SameExprsNames(ren, raw, src, keys, orderBy, [out] + outer);
        SameItemsNames(ren, raw, src, keys, items, out, outer);
        SameItemCols(ren, raw == src.raw, items, sc.value);
      }
  }

  /** Main result: renaming the tables leaves the answer, rows or error, exactly as it was. If the query runs no
      statement given as text, the database such a statement would see does not matter either. */
  lemma SameAnswer(ren: Renaming, raw: Database, src: Sources, keys: KeyColumns, q: Query)
    requires Apart(ren) && SourcesUnused(ren, src) && QueryFree(ren, raw == src.raw, q)
    ensures Answer(RenSources(ren, raw, src), keys, q) == Answer(src, keys, q)
  {
    hide Apart, SourcesUnused, RenSources, EvalQuery, QueryCols, Avoids;
    assert RenScopes(ren, []) == [] && RenFrameList(ren, []) == [];
    SameCols(ren, raw, src, keys, q, []);
    SameQuery(ren, raw, src, q, []);
  }

  // ---- Names nothing is called by ----

  predicate Uncalled(names: set<string>, sc: Schema) { forall i :: 0 <= i < |sc| ==> sc[i].0 !in names }

  /** Nothing in the scope is called so, and the items it is grouped by qualify nothing so. */
  predicate ScopeUncalled(names: set<string>, scope: Scope) {
    && Uncalled(names, scope.sc)
    && (scope.rule.Grouped? ==> ExprsAvoid(Ban(names, {}, false), scope.rule.items))
  }

  predicate AllUncalled(names: set<string>, scopes: seq<Scope>) {
    forall i :: 0 <= i < |scopes| ==> ScopeUncalled(names, scopes[i])
  }

  predicate SourcesUncalled(names: set<string>, src: Sources) {
    forall i :: 0 <= i < |src.nodes| && src.nodes[i].Some? ==> src.nodes[i].value.alias !in names
  }

  lemma NoCount(names: set<string>, sc: Schema, qual: string, name: string)
    requires Uncalled(names, sc) && qual in names
    ensures NameCount(sc, Some(qual), name) == 0
  {
    if sc != [] {
      assert sc[0].0 !in names;
      NoCount(names, sc[1..], qual, name);
    }
  }

  lemma Unresolvable(names: set<string>, scopes: seq<Scope>, qual: string, name: string)
    requires AllUncalled(names, scopes) && qual in names
    ensures !Resolvable(scopes, Some(qual), name)
  {
    if scopes != [] {
      assert ScopeUncalled(names, scopes[0]);
      NoCount(names, scopes[0].sc, qual, name);
      Unresolvable(names, scopes[1..], qual, name);
    }
  }

  lemma {:induction false} ListedAvoids(ban: Ban, e: Expr, items: Exprs)
    requires Listed(e, items) && ExprsAvoid(ban, items)
    ensures ExprAvoids(ban, e)
  {
    if e != items.head { ListedAvoids(ban, e, items.tail); }
  }

  lemma UncalledCons(names: set<string>, scope: Scope, outer: seq<Scope>)
    requires ScopeUncalled(names, scope) && AllUncalled(names, outer)
    ensures AllUncalled(names, [scope] + outer)
  {
    hide ScopeUncalled;
  }

  lemma Ungrouped(names: set<string>, scopes: seq<Scope>)
    requires AllUncalled(names, scopes) && scopes != []
    ensures AllUncalled(names, [Scope(scopes[0].sc, Anything)] + scopes[1..])
  {
    assert ScopeUncalled(names, scopes[0]);
  }

  lemma {:induction false} ExprNamesNothing(
    names: set<string>, src: Sources, keys: KeyColumns, e: Expr, scopes: seq<Scope>)
    requires SourcesUncalled(names, src) && AllUncalled(names, scopes) && ExprAvoids(Ban({}, names, false), e)
    requires scopes != [] && ExprNames(src, keys, e, scopes)
    ensures ExprAvoids(Ban(names, {}, false), e)
    decreases e
  {
    if scopes[0].rule.Grouped? && Listed(e, scopes[0].rule.items) {
      assert ScopeUncalled(names, scopes[0]);
      ListedAvoids(Ban(names, {}, false), e, scopes[0].rule.items);
      return;
    }
    hide Resolvable, SourcesUncalled, AllUncalled, Listed;
    match e
    case Lit(_) =>
    case Col(qual, name) => if qual.Some? && qual.value in names { Unresolvable(names, scopes, qual.value, name); }
    case Op(_, l, r) => ExprNamesNothing(names, src, keys, l, scopes); ExprNamesNothing(names, src, keys, r, scopes);
    case Not(x) => ExprNamesNothing(names, src, keys, x, scopes);
    case IsNull(x) => ExprNamesNothing(names, src, keys, x, scopes);
    case Agg(_, x) =>
      Ungrouped(names, scopes);
      ExprNamesNothing(names, src, keys, x, [Scope(scopes[0].sc, Anything)] + scopes[1..]);
    case Scalar(q) => NamesNothing(names, src, keys, q, scopes);
    case Exists(q) => NamesNothing(names, src, keys, q, scopes);
    case InQuery(x, q) => ExprNamesNothing(names, src, keys, x, scopes); NamesNothing(names, src, keys, q, scopes);
    case RunText(_, _) =>
  }

  lemma {:induction false} ExprsNameNothing(
    names: set<string>, src: Sources, keys: KeyColumns, es: Exprs, scopes: seq<Scope>)
    requires SourcesUncalled(names, src) && AllUncalled(names, scopes) && ExprsAvoid(Ban({}, names, false), es)
    requires scopes != [] && ExprsNames(src, keys, es, scopes)
    ensures ExprsAvoid(Ban(names, {}, false), es)
    decreases es
  {
    hide SourcesUncalled, AllUncalled, ExprNames, ExprAvoids;
    if es.MoreExprs? {
      ExprNamesNothing(names, src, keys, es.head, scopes);
      ExprsNameNothing(names, src, keys, es.tail, scopes);
    }
  }

  lemma {:induction false} ItemsNameNothing(
    names: set<string>, src: Sources, keys: KeyColumns, items: Items, scope: Scope, outer: seq<Scope>)
    requires SourcesUncalled(names, src) && Uncalled(names, scope.sc) && AllUncalled(names, [scope] + outer)
    requires ItemsAvoid(Ban({}, names, false), items) && ItemsNames(src, keys, items, scope, outer)
    ensures ItemsAvoid(Ban(names, {}, false), items)
    decreases items
  {
    hide SourcesUncalled, AllUncalled, ExprNames, ExprAvoids, AllUsable;
    match items
    case NoItems =>
    case Column(e, _, rest) =>
      ExprNamesNothing(names, src, keys, e, [scope] + outer);
      ItemsNameNothing(names, src, keys, rest, scope, outer);
    case Star(rest) => ItemsNameNothing(names, src, keys, rest, scope, outer);
    case QualifiedStar(_, rest) => ItemsNameNothing(names, src, keys, rest, scope, outer);
  }

  lemma {:induction false} FromNamesNothing(
    names: set<string>, src: Sources, keys: KeyColumns, f: From, outer: seq<Scope>)
    requires SourcesUncalled(names, src) && AllUncalled(names, outer) && FromAvoids(Ban({}, names, false), f)
    requires FromSchema(src, keys, f, outer).Some?
    ensures FromAvoids(Ban(names, {}, false), f) && Uncalled(names, FromSchema(src, keys, f, outer).value)
    decreases f
  {
    hide QueryCols, Avoids, ExprNames, ExprAvoids, ShareAlias, AllUncalled;
    match f
    case Nothing =>
    case Base(_) =>
    case Derived(q, _) => NamesNothing(names, src, keys, q, outer);
    case Join(l, r, _, on) =>
      FromNamesNothing(names, src, keys, l, outer);
      FromNamesNothing(names, src, keys, r, outer);
      var scope := Scope(FromSchema(src, keys, l, outer).value + FromSchema(src, keys, r, outer).value, Anything);
      UncalledCons(names, scope, outer);
      ExprNamesNothing(names, src, keys, on, [scope] + outer);
  }

  /** A query that is not refused qualifies nothing by a name no table in it is called by. */
  lemma {:induction false} NamesNothing(
    names: set<string>, src: Sources, keys: KeyColumns, q: Query, outer: seq<Scope>)
    requires SourcesUncalled(names, src) && AllUncalled(names, outer) && Avoids(Ban({}, names, false), q)
    requires QueryCols(src, keys, q, outer).Some?
    ensures Avoids(Ban(names, {}, false), q)
    decreases q
  {
    hide SourcesUncalled, AllUncalled, Uncalled, FromSchema, ExprNames, ExprsNames, ItemsNames, ItemCols,
      ItemsAvoid, FromAvoids, ExprAvoids, ExprsAvoid, Determined, FromKeys;
    match q
    case Union(l, r, _) =>
      NamesNothing(names, src, keys, l, outer);
      NamesNothing(names, src, keys, r, outer);
    case Select(items, from, where_, grouped, groupBy, having, _, orderBy, _) =>
      FromNamesNothing(names, src, keys, from, outer);
      var sc := FromSchema(src, keys, from, outer).value;
      var rows, out := Scope(sc, Anything), Scope(sc, RuleOf(sc, FromKeys(keys, from), grouped, groupBy));
      UncalledCons(names, rows, outer);
      ExprNamesNothing(names, src, keys, where_, [rows] + outer);
      ExprsNameNothing(names, src, keys, groupBy, [rows] + outer);
      UncalledCons(names, out, outer);
      ExprNamesNothing(names, src, keys, having, [out] + outer);
      ExprsNameNothing(names, src, keys, orderBy, [out] + outer);
      ItemsNameNothing(names, src, keys, items, out, outer);
  }

  // ---- Fewer keys, fewer queries ----

  /** The same tables, of which at least as much may be used. */
  predicate Looser(a: Scope, b: Scope) {
    && a.sc == b.sc
    && (if a.rule.Anything? then b.rule.Anything?
        else b.rule.Grouped? && a.rule.items == b.rule.items && a.rule.spots <= b.rule.spots)
  }

  predicate AllLooser(a: seq<Scope>, b: seq<Scope>) {
    |a| == |b| && forall i :: 0 <= i < |a| ==> Looser(a[i], b[i])
  }

  function NoKeys(n: nat): KeyColumns { seq(n, i => None) }

  lemma LooserCons(a: Scope, b: Scope, as_: seq<Scope>, bs: seq<Scope>)
    requires Looser(a, b) && AllLooser(as_, bs)
    ensures AllLooser([a] + as_, [b] + bs)
  {
    hide Looser;
  }

  lemma LooserResolvable(a: seq<Scope>, b: seq<Scope>, qual: Option<string>, name: string)
    requires AllLooser(a, b) && Resolvable(a, qual, name)
    ensures Resolvable(b, qual, name)
  {
    assert Looser(a[0], b[0]);
    if NameCount(a[0].sc, qual, name) != 1 {
      LooserResolvable(a[1..], b[1..], qual, name);
    }
  }

  lemma {:induction false} FromNoKeys(n: nat, f: From)
    ensures forall i :: 0 <= i < |FromKeys(NoKeys(n), f)| ==> FromKeys(NoKeys(n), f)[i] == None
  {
    if f.Join? {
      FromNoKeys(n, f.l);
      FromNoKeys(n, f.r);
    }
  }

  lemma LooserRule(n: nat, keys: KeyColumns, sc: Schema, from: From, grouped: bool, groupBy: Exprs)
    ensures Looser(Scope(sc, RuleOf(sc, FromKeys(NoKeys(n), from), grouped, groupBy)),
                   Scope(sc, RuleOf(sc, FromKeys(keys, from), grouped, groupBy)))
  {
    FromNoKeys(n, from);
    var spots := ItemSpots(sc, groupBy);
    assert Determined(sc, FromKeys(NoKeys(n), from), spots) == spots;
  }

  lemma {:induction false} LooserExpr(
    src: Sources, n: nat, keys: KeyColumns, e: Expr, a: seq<Scope>, b: seq<Scope>)
    requires AllLooser(a, b) && a != [] && ExprNames(src, NoKeys(n), e, a)
    ensures ExprNames(src, keys, e, b)
    decreases e
  {
    assert Looser(a[0], b[0]);
    hide Resolvable, Listed, AllLooser, NoKeys;
    if a[0].rule.Grouped? && Listed(e, a[0].rule.items) {
      return;
    }
    match e
    case Lit(_) =>
    case Col(qual, name) => LooserResolvable(a, b, qual, name);
    case Op(_, l, r) => LooserExpr(src, n, keys, l, a, b); LooserExpr(src, n, keys, r, a, b);
    case Not(x) => LooserExpr(src, n, keys, x, a, b);
    case IsNull(x) => LooserExpr(src, n, keys, x, a, b);
    case Agg(_, x) =>
      LooserTails(a, b);
      LooserCons(Scope(a[0].sc, Anything), Scope(b[0].sc, Anything), a[1..], b[1..]);
      LooserExpr(src, n, keys, x, [Scope(a[0].sc, Anything)] + a[1..], [Scope(b[0].sc, Anything)] + b[1..]);
    case Scalar(q) => LooserCols(src, n, keys, q, a, b);
    case Exists(q) => LooserCols(src, n, keys, q, a, b);
    case InQuery(x, q) => LooserExpr(src, n, keys, x, a, b); LooserCols(src, n, keys, q, a, b);
    case RunText(_, _) =>
  }

  lemma LooserTails(a: seq<Scope>, b: seq<Scope>)
    requires AllLooser(a, b) && a != []
    ensures b != [] && AllLooser(a[1..], b[1..])
  {
    hide Looser;
  }

  lemma {:induction false} LooserExprs(
    src: Sources, n: nat, keys: KeyColumns, es: Exprs, a: seq<Scope>, b: seq<Scope>)
    requires AllLooser(a, b) && a != [] && ExprsNames(src, NoKeys(n), es, a)
    ensures ExprsNames(src, keys, es, b)
    decreases es
  {
    hide ExprNames, NoKeys;
    if es.MoreExprs? {
      LooserExpr(src, n, keys, es.head, a, b);
      LooserExprs(src, n, keys, es.tail, a, b);
    }
  }

  lemma {:induction false} LooserItems(
    src: Sources, n: nat, keys: KeyColumns, items: Items, a: Scope, b: Scope, as_: seq<Scope>, bs: seq<Scope>)
    requires Looser(a, b) && AllLooser(as_, bs) && ItemsNames(src, NoKeys(n), items, a, as_)
    ensures ItemsNames(src, keys, items, b, bs)
    decreases items
  {
    hide ExprNames, NoKeys, AllLooser;
    match items
    case NoItems =>
    case Column(e, _, rest) =>
      LooserCons(a, b, as_, bs);
      LooserExpr(src, n, keys, e, [a] + as_, [b] + bs);
      LooserItems(src, n, keys, rest, a, b, as_, bs);
    case Star(rest) => LooserItems(src, n, keys, rest, a, b, as_, bs);
    case QualifiedStar(_, rest) => LooserItems(src, n, keys, rest, a, b, as_, bs);
  }

  lemma {:induction false} LooserFrom(
    src: Sources, n: nat, keys: KeyColumns, f: From, as_: seq<Scope>, bs: seq<Scope>)
    requires AllLooser(as_, bs) && FromSchema(src, NoKeys(n), f, as_).Some?
    ensures FromSchema(src, keys, f, bs) == FromSchema(src, NoKeys(n), f, as_)
    decreases f
  {
    hide QueryCols, ExprNames, NoKeys, AllLooser, ShareAlias;
    match f
    case Nothing =>
    case Base(_) =>
    case Derived(q, _) => LooserCols(src, n, keys, q, as_, bs);
    case Join(l, r, _, on) =>
      LooserFrom(src, n, keys, l, as_, bs);
      LooserFrom(src, n, keys, r, as_, bs);
      var scope := Scope(FromSchema(src, keys, l, bs).value + FromSchema(src, keys, r, bs).value, Anything);
      LooserCons(scope, scope, as_, bs);
      LooserExpr(src, n, keys, on, [scope] + as_, [scope] + bs);
  }

  /** A query accepted although no key is known is accepted, with the same columns, whatever keys are declared. */
  lemma {:induction false} LooserCols(src: Sources, n: nat, keys: KeyColumns, q: Query, as_: seq<Scope>, bs: seq<Scope>)
    requires AllLooser(as_, bs) && QueryCols(src, NoKeys(n), q, as_).Some?
    ensures QueryCols(src, keys, q, bs) == QueryCols(src, NoKeys(n), q, as_)
    decreases q
  {
    hide FromSchema, ExprNames, ExprsNames, ItemsNames, ItemCols, RuleOf, FromKeys, NoKeys, AllLooser, Looser;
    match q
    case Union(l, r, _) =>
      LooserCols(src, n, keys, l, as_, bs);
      LooserCols(src, n, keys, r, as_, bs);
    case Select(items, from, where_, grouped, groupBy, having, _, orderBy, _) =>
      LooserFrom(src, n, keys, from, as_, bs);
      var sc := FromSchema(src, keys, from, bs).value;
      var rows := Scope(sc, Anything);
      var a := Scope(sc, RuleOf(sc, FromKeys(NoKeys(n), from), grouped, groupBy));
      var b := Scope(sc, RuleOf(sc, FromKeys(keys, from), grouped, groupBy));
      LooserSelf(rows);
      LooserCons(rows, rows, as_, bs);
      LooserRule(n, keys, sc, from, grouped, groupBy);
      LooserCons(a, b, as_, bs);
      LooserExpr(src, n, keys, where_, [rows] + as_, [rows] + bs);
      LooserExprs(src, n, keys, groupBy, [rows] + as_, [rows] + bs);
      LooserExpr(src, n, keys, having, [a] + as_, [b] + bs);
      LooserExprs(src, n, keys, orderBy, [a] + as_, [b] + bs);
      LooserItems(src, n, keys, items, a, b, as_, bs);
  }

  lemma LooserSelf(a: Scope)
    ensures Looser(a, a)
  {
  }
}
