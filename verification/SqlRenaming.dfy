/** Calling tables by other names does not change what a query returns, as long as the query's
    own qualifiers are neither old names nor new ones. */
module SqlRenaming {
  import opened Base
  import opened SqlModel

  type Renaming = map<string, string>

  /** No two names become one, and no name that appears was there before. */
  predicate Apart(ren: Renaming) {
    && ren.Keys !! ren.Values
    && forall a, b :: a in ren && b in ren && ren[a] == ren[b] ==> a == b
  }

  predicate Unused(ren: Renaming, alias: string) { alias !in ren.Values }

  function Names(ren: Renaming): set<string> { ren.Keys + ren.Values }

  /** A name the renaming has nothing to do with. */
  predicate Free(ren: Renaming, alias: string) { alias !in Names(ren) }

  // ---- What a query stays clear of ----

  /** Names no column is qualified by, names no derived table is called by, and whether statements given as text are
      banned. */
  datatype Ban = Ban(quals: set<string>, aliases: set<string>, texts: bool)

  function Both(a: Ban, b: Ban): Ban { Ban(a.quals + b.quals, a.aliases + b.aliases, a.texts || b.texts) }

  predicate ExprAvoids(ban: Ban, e: Expr) {
    match e
    case Lit(_) => true
    case Col(qual, _) => qual.Some? ==> qual.value !in ban.quals
    case Op(_, l, r) => ExprAvoids(ban, l) && ExprAvoids(ban, r)
    case Not(x) => ExprAvoids(ban, x)
    case IsNull(x) => ExprAvoids(ban, x)
    case Agg(_, x) => ExprAvoids(ban, x)
    case Scalar(q) => Avoids(ban, q)
    case Exists(q) => Avoids(ban, q)
    case InQuery(x, q) => ExprAvoids(ban, x) && Avoids(ban, q)
    case RunText(_, _) => !ban.texts
  }

  predicate ExprsAvoid(ban: Ban, es: Exprs) {
    es.MoreExprs? ==> ExprAvoids(ban, es.head) && ExprsAvoid(ban, es.tail)
  }

  predicate ItemsAvoid(ban: Ban, items: Items) {
    match items
    case NoItems => true
    case Column(e, _, rest) => ExprAvoids(ban, e) && ItemsAvoid(ban, rest)
    case Star(rest) => ItemsAvoid(ban, rest)
    case QualifiedStar(alias, rest) => alias !in ban.quals && ItemsAvoid(ban, rest)
  }

  predicate FromAvoids(ban: Ban, f: From) {
    match f
    case Nothing => true
    case Base(_) => true
    case Derived(q, alias) => alias !in ban.aliases && Avoids(ban, q)
    case Join(l, r, _, on) => FromAvoids(ban, l) && FromAvoids(ban, r) && ExprAvoids(ban, on)
  }

  predicate Avoids(ban: Ban, q: Query) {
    match q
    case Union(l, r, _) => Avoids(ban, l) && Avoids(ban, r)
    case Select(items, from, where_, _, groupBy, having, _, orderBy, _) =>
      && ItemsAvoid(ban, items) && FromAvoids(ban, from) && ExprAvoids(ban, where_)
      && ExprsAvoid(ban, groupBy) && ExprAvoids(ban, having) && ExprsAvoid(ban, orderBy)
  }

  /** Staying clear of two bans is staying clear of both together. */
  lemma {:induction false} ExprAvoidsBoth(a: Ban, b: Ban, e: Expr)
    ensures ExprAvoids(Both(a, b), e) <==> ExprAvoids(a, e) && ExprAvoids(b, e)
    decreases e
  {
    match e
    case Lit(_) =>
    case Col(_, _) =>
    case Op(_, l, r) => ExprAvoidsBoth(a, b, l); ExprAvoidsBoth(a, b, r);
    case Not(x) => ExprAvoidsBoth(a, b, x);
    case IsNull(x) => ExprAvoidsBoth(a, b, x);
    case Agg(_, x) => ExprAvoidsBoth(a, b, x);
    case Scalar(q) => AvoidsBoth(a, b, q);
    case Exists(q) => AvoidsBoth(a, b, q);
    case InQuery(x, q) => ExprAvoidsBoth(a, b, x); AvoidsBoth(a, b, q);
    case RunText(_, _) =>
  }

  lemma {:induction false} ExprsAvoidBoth(a: Ban, b: Ban, es: Exprs)
    ensures ExprsAvoid(Both(a, b), es) <==> ExprsAvoid(a, es) && ExprsAvoid(b, es)
    decreases es
  {
    hide ExprAvoids;
    if es.MoreExprs? {
      ExprAvoidsBoth(a, b, es.head);
      ExprsAvoidBoth(a, b, es.tail);
    }
  }

  lemma {:induction false} ItemsAvoidBoth(a: Ban, b: Ban, items: Items)
    ensures ItemsAvoid(Both(a, b), items) <==> ItemsAvoid(a, items) && ItemsAvoid(b, items)
    decreases items
  {
    hide ExprAvoids;
    match items
    case NoItems =>
    case Column(e, _, rest) => ExprAvoidsBoth(a, b, e); ItemsAvoidBoth(a, b, rest);
    case Star(rest) => ItemsAvoidBoth(a, b, rest);
    case QualifiedStar(_, rest) => ItemsAvoidBoth(a, b, rest);
  }

  lemma {:induction false} FromAvoidsBoth(a: Ban, b: Ban, f: From)
    ensures FromAvoids(Both(a, b), f) <==> FromAvoids(a, f) && FromAvoids(b, f)
    decreases f
  {
    hide ExprAvoids, Avoids;
    match f
    case Nothing =>
    case Base(_) =>
    case Derived(q, _) => AvoidsBoth(a, b, q);
    case Join(l, r, _, on) =>
      FromAvoidsBoth(a, b, l);
      FromAvoidsBoth(a, b, r);
      ExprAvoidsBoth(a, b, on);
  }

  lemma {:induction false} AvoidsBoth(a: Ban, b: Ban, q: Query)
    ensures Avoids(Both(a, b), q) <==> Avoids(a, q) && Avoids(b, q)
    decreases q
  {
    hide ItemsAvoid, FromAvoids, ExprAvoids, ExprsAvoid;
    match q
    case Union(l, r, _) => AvoidsBoth(a, b, l); AvoidsBoth(a, b, r);
    case Select(items, from, where_, _, groupBy, having, _, orderBy, _) =>
      ItemsAvoidBoth(a, b, items);
      FromAvoidsBoth(a, b, from);
      ExprAvoidsBoth(a, b, where_);
      ExprsAvoidBoth(a, b, groupBy);
      ExprAvoidsBoth(a, b, having);
      ExprsAvoidBoth(a, b, orderBy);
  }

  /** Under this a query may be renamed; `same` says that statements given as text see the same database. */
  function Strict(ren: Renaming, same: bool): Ban { Ban(Names(ren), Names(ren), !same) }

  predicate ExprFree(ren: Renaming, same: bool, e: Expr) { ExprAvoids(Strict(ren, same), e) }

  predicate ExprsFree(ren: Renaming, same: bool, es: Exprs) { ExprsAvoid(Strict(ren, same), es) }

  predicate ItemsFree(ren: Renaming, same: bool, items: Items) { ItemsAvoid(Strict(ren, same), items) }

  predicate FromFree(ren: Renaming, same: bool, f: From) { FromAvoids(Strict(ren, same), f) }

  predicate QueryFree(ren: Renaming, same: bool, q: Query) { Avoids(Strict(ren, same), q) }

  // ---- Renaming what is in scope ----

  function Called(ren: Renaming, alias: string): string { if alias in ren then ren[alias] else alias }

  function RenFrame(ren: Renaming, f: Frame): Frame {
    seq(|f|, i requires 0 <= i < |f| => Binding(Called(ren, f[i].alias), f[i].cols, f[i].vals))
  }

  function RenFrameList(ren: Renaming, fs: seq<Frame>): seq<Frame> {
    seq(|fs|, i requires 0 <= i < |fs| => RenFrame(ren, fs[i]))
  }

  function RenSchema(ren: Renaming, schema: Schema): Schema {
    seq(|schema|, i requires 0 <= i < |schema| => (Called(ren, schema[i].0), schema[i].1))
  }

  function RenFrames(ren: Renaming, f: Frames): Frames {
    Frames(RenSchema(ren, f.schema), RenFrameList(ren, f.frames))
  }

  function RenSource(ren: Renaming, s: Option<Source>): Option<Source> {
    match s
    case None => None
    case Some(x) => Some(Source(Called(ren, x.alias), x.rel))
  }

  /** The sources under their new names, and another database for statements given as text. */
  function RenSources(ren: Renaming, raw: Database, src: Sources): Sources {
    Sources(seq(|src.nodes|, i requires 0 <= i < |src.nodes| => RenSource(ren, src.nodes[i])), raw)
  }

  function RenContext(ren: Renaming, c: Context): Context {
    Context(RenFrame(ren, c.current), RenFrameList(ren, c.group))
  }

  function RenContexts(ren: Renaming, cs: seq<Context>): seq<Context> {
    seq(|cs|, i requires 0 <= i < |cs| => RenContext(ren, cs[i]))
  }

  function RenGroups(ren: Renaming, gs: seq<(Row, seq<Frame>)>): seq<(Row, seq<Frame>)> {
    seq(|gs|, i requires 0 <= i < |gs| => (gs[i].0, RenFrameList(ren, gs[i].1)))
  }

  function RenRows(ren: Renaming, r: Option<seq<Frame>>): Option<seq<Frame>> {
    match r
    case None => None
    case Some(fs) => Some(RenFrameList(ren, fs))
  }

  function RenTable(ren: Renaming, r: Option<Frames>): Option<Frames> {
    match r
    case None => None
    case Some(f) => Some(RenFrames(ren, f))
  }

  function RenGrouping(ren: Renaming, r: Option<seq<(Row, seq<Frame>)>>): Option<seq<(Row, seq<Frame>)>> {
    match r
    case None => None
    case Some(gs) => Some(RenGroups(ren, gs))
  }

  function RenKept(ren: Renaming, r: Option<seq<Context>>): Option<seq<Context>> {
    match r
    case None => None
    case Some(cs) => Some(RenContexts(ren, cs))
  }

  predicate SchemaUnused(ren: Renaming, schema: Schema) {
    forall i :: 0 <= i < |schema| ==> Unused(ren, schema[i].0)
  }

  predicate SourcesUnused(ren: Renaming, src: Sources) {
    forall i :: 0 <= i < |src.nodes| && src.nodes[i].Some? ==> Unused(ren, src.nodes[i].value.alias)
  }

  // ---- Renaming and the parts of a query ----

  lemma RenCons(ren: Renaming, f: Frame, fs: seq<Frame>)
    ensures RenFrameList(ren, [f] + fs) == [RenFrame(ren, f)] + RenFrameList(ren, fs)
  {
    assert forall i :: 0 < i < |fs| + 1 ==> ([f] + fs)[i] == fs[i - 1];
  }

  lemma RenSplit(ren: Renaming, fs: seq<Frame>)
    requires fs != []
    ensures RenFrameList(ren, fs) == [RenFrame(ren, fs[0])] + RenFrameList(ren, fs[1..])
    ensures RenFrameList(ren, fs)[1..] == RenFrameList(ren, fs[1..])
  {}

  lemma RenTogether(ren: Renaming, a: seq<Frame>, b: seq<Frame>)
    ensures RenFrameList(ren, a + b) == RenFrameList(ren, a) + RenFrameList(ren, b)
  {}

  lemma RenJoin(ren: Renaming, a: Frame, b: Frame)
    ensures RenFrame(ren, a + b) == RenFrame(ren, a) + RenFrame(ren, b)
  {}

  lemma SameHits(ren: Renaming, f: Frame, qual: Option<string>, name: string)
    requires qual.Some? ==> Free(ren, qual.value)
    ensures Hits(RenFrame(ren, f), qual, name) == Hits(f, qual, name)
  {
    if f != [] {
      assert RenFrame(ren, f)[1..] == RenFrame(ren, f[1..]);
      SameHits(ren, f[1..], qual, name);
    }
  }

  lemma SameHasAlias(ren: Renaming, f: Frame, alias: string)
    requires Free(ren, alias)
    ensures HasAlias(RenFrame(ren, f), alias) == HasAlias(f, alias)
  {
    assert forall i :: 0 <= i < |f| ==> (RenFrame(ren, f)[i].alias == alias <==> f[i].alias == alias);
  }

  lemma SameResolve(ren: Renaming, scopes: seq<Frame>, qual: Option<string>, name: string)
    requires qual.Some? ==> Free(ren, qual.value)
    ensures Resolve(RenFrameList(ren, scopes), qual, name) == Resolve(scopes, qual, name)
  {
    if scopes != [] {
      RenSplit(ren, scopes);
      SameHits(ren, scopes[0], qual, name);
      if qual.Some? { SameHasAlias(ren, scopes[0], qual.value); }
      SameResolve(ren, scopes[1..], qual, name);
    }
  }

  lemma SameAllVals(ren: Renaming, f: Frame)
    ensures AllVals(RenFrame(ren, f)) == AllVals(f)
  {
    if f != [] {
      assert RenFrame(ren, f)[1..] == RenFrame(ren, f[1..]);
      SameAllVals(ren, f[1..]);
    }
  }

  lemma SameAliasVals(ren: Renaming, f: Frame, alias: string)
    requires Free(ren, alias)
    ensures AliasVals(RenFrame(ren, f), alias) == AliasVals(f, alias)
  {
    if f != [] {
      assert RenFrame(ren, f)[1..] == RenFrame(ren, f[1..]);
      SameAliasVals(ren, f[1..], alias);
    }
  }

  lemma SameAllCols(ren: Renaming, schema: Schema)
    ensures AllCols(RenSchema(ren, schema)) == AllCols(schema)
  {
    if schema != [] {
      assert RenSchema(ren, schema)[1..] == RenSchema(ren, schema[1..]);
      SameAllCols(ren, schema[1..]);
    }
  }

  lemma SameAliasCols(ren: Renaming, schema: Schema, alias: string)
    requires Free(ren, alias)
    ensures AliasCols(RenSchema(ren, schema), alias) == AliasCols(schema, alias)
  {
    if schema != [] {
      assert RenSchema(ren, schema)[1..] == RenSchema(ren, schema[1..]);
      SameAliasCols(ren, schema[1..], alias);
    }
  }

  lemma SameItemCols(ren: Renaming, same: bool, items: Items, schema: Schema)
    requires ItemsFree(ren, same, items)
    ensures ItemCols(items, RenSchema(ren, schema)) == ItemCols(items, schema)
  {
    match items
    case NoItems =>
    case Column(_, _, rest) => SameItemCols(ren, same, rest, schema);
    case Star(rest) => SameAllCols(ren, schema); SameItemCols(ren, same, rest, schema);
    case QualifiedStar(alias, rest) => SameAliasCols(ren, schema, alias); SameItemCols(ren, same, rest, schema);
  }

  lemma SameCollision(ren: Renaming, a: Schema, b: Schema)
    requires Apart(ren) && SchemaUnused(ren, a) && SchemaUnused(ren, b)
    ensures ShareAlias(RenSchema(ren, a), RenSchema(ren, b)) == ShareAlias(a, b)
  {
    forall i, j | 0 <= i < |a| && 0 <= j < |b|
      ensures RenSchema(ren, a)[i].0 == RenSchema(ren, b)[j].0 <==> a[i].0 == b[j].0
    {
      assert Unused(ren, a[i].0) && Unused(ren, b[j].0);
    }
  }

  lemma SameBindRows(ren: Renaming, alias: string, cols: seq<string>, rows: seq<Row>)
    ensures BindRows(Called(ren, alias), cols, rows) == RenFrameList(ren, BindRows(alias, cols, rows))
  {
    forall i | 0 <= i < |rows|
      ensures BindRows(Called(ren, alias), cols, rows)[i] == RenFrameList(ren, BindRows(alias, cols, rows))[i]
    {
      assert RenFrame(ren, [Binding(alias, cols, rows[i])]) == [Binding(Called(ren, alias), cols, rows[i])];
    }
  }

  lemma SameNullFrame(ren: Renaming, schema: Schema)
    ensures NullFrame(RenSchema(ren, schema)) == RenFrame(ren, NullFrame(schema))
  {}

  lemma SamePairings(ren: Renaming, l: Frame, rs: seq<Frame>)
    ensures Pairings(RenFrame(ren, l), RenFrameList(ren, rs)) == RenFrameList(ren, Pairings(l, rs))
  {
    forall i | 0 <= i < |rs|
      ensures Pairings(RenFrame(ren, l), RenFrameList(ren, rs))[i] == RenFrameList(ren, Pairings(l, rs))[i]
    {
      RenJoin(ren, l, rs[i]);
    }
  }

  lemma SameAddToGroup(ren: Renaming, gs: seq<(Row, seq<Frame>)>, key: Row, f: Frame)
    ensures AddToGroup(RenGroups(ren, gs), key, RenFrame(ren, f)) == RenGroups(ren, AddToGroup(gs, key, f))
  {
    if gs != [] {
      assert RenGroups(ren, gs)[1..] == RenGroups(ren, gs[1..]);
      RenTogether(ren, gs[0].1, [f]);
      assert RenFrameList(ren, [f]) == [RenFrame(ren, f)];
      SameAddToGroup(ren, gs[1..], key, f);
    } else {
      assert RenFrameList(ren, [f]) == [RenFrame(ren, f)];
    }
  }

  lemma SameGroupContexts(ren: Renaming, gs: seq<(Row, seq<Frame>)>, blank: Frame)
    ensures GroupContexts(RenGroups(ren, gs), RenFrame(ren, blank)) == RenContexts(ren, GroupContexts(gs, blank))
  {}

  lemma SameSolo(ren: Renaming, fs: seq<Frame>)
    ensures Solo(RenFrameList(ren, fs)) == RenContexts(ren, Solo(fs))
  {
    forall i | 0 <= i < |fs|
      ensures Solo(RenFrameList(ren, fs))[i] == RenContexts(ren, Solo(fs))[i]
    {
      assert RenFrameList(ren, [fs[i]]) == [RenFrame(ren, fs[i])];
    }
  }

  lemma ContextsSplit(ren: Renaming, cs: seq<Context>)
    requires cs != []
    ensures RenContexts(ren, cs) == [RenContext(ren, cs[0])] + RenContexts(ren, cs[1..])
    ensures RenContexts(ren, cs)[1..] == RenContexts(ren, cs[1..])
  {}

  lemma KeptMore(ren: Renaming, c: Context, rest: seq<Context>)
    ensures RenContexts(ren, [c] + rest) == [RenContext(ren, c)] + RenContexts(ren, rest)
    ensures RenContexts(ren, [] + rest) == RenContexts(ren, rest) == [] + RenContexts(ren, rest)
  {
    hide RenFrame, RenFrameList, RenContext;
    assert [] + rest == rest;
  }

  // ---- Renaming and evaluation ----

  lemma RawOf(ren: Renaming, raw: Database, src: Sources)
    ensures RenSources(ren, raw, src).raw == raw
  {}

  lemma {:induction false} SameExpr(
      ren: Renaming, raw: Database, src: Sources, e: Expr, scopes: seq<Frame>, group: seq<Frame>)
    requires Apart(ren) && SourcesUnused(ren, src) && ExprFree(ren, raw == src.raw, e) && scopes != []
    ensures EvalExpr(RenSources(ren, raw, src), e, RenFrameList(ren, scopes), RenFrameList(ren, group))
         == EvalExpr(src, e, scopes, group)
    decreases e, 0, 0
  {
    hide Apart, SourcesUnused, Resolve, Apply, Negate, Fold, Member, FirstColumn, RenSources;
    match e
    case Lit(_) =>
    case Col(qual, name) => SameResolve(ren, scopes, qual, name);
    case Op(_, l, r) => SameExpr(ren, raw, src, l, scopes, group); SameExpr(ren, raw, src, r, scopes, group);
    case Not(x) => SameExpr(ren, raw, src, x, scopes, group);
    case IsNull(x) => SameExpr(ren, raw, src, x, scopes, group);
    case Agg(_, x) => RenSplit(ren, scopes); SameOver(ren, raw, src, x, group, scopes[1..]);
    case Scalar(q) => SameQuery(ren, raw, src, q, scopes);
    case Exists(q) => SameQuery(ren, raw, src, q, scopes);
    case InQuery(x, q) => SameExpr(ren, raw, src, x, scopes, group); SameQuery(ren, raw, src, q, scopes);
    case RunText(_, _) => RawOf(ren, raw, src);
  }

  lemma {:induction false} SameOver(
      ren: Renaming, raw: Database, src: Sources, e: Expr, group: seq<Frame>, outer: seq<Frame>)
    requires Apart(ren) && SourcesUnused(ren, src) && ExprFree(ren, raw == src.raw, e)
    ensures EvalOver(RenSources(ren, raw, src), e, RenFrameList(ren, group), RenFrameList(ren, outer))
         == EvalOver(src, e, group, outer)
    decreases e, 1, |group|
  {
    hide Apart, SourcesUnused, EvalExpr, ExprAvoids, RenSources;
    if group != [] {
      RenSplit(ren, group);
      SameExprAt(ren, raw, src, e, group[0], [group[0]], outer);
      SameOver(ren, raw, src, e, group[1..], outer);
    }
  }

  /** An expression in a row of the current query. */
  lemma {:induction false} SameExprAt(
      ren: Renaming, raw: Database, src: Sources, e: Expr, f: Frame, group: seq<Frame>, outer: seq<Frame>)
    requires Apart(ren) && SourcesUnused(ren, src) && ExprFree(ren, raw == src.raw, e)
    ensures EvalExpr(RenSources(ren, raw, src), e, [RenFrame(ren, f)] + RenFrameList(ren, outer),
      RenFrameList(ren, group))
         == EvalExpr(src, e, [f] + outer, group)
    ensures RenFrameList(ren, [f]) == [RenFrame(ren, f)]
    decreases e, 0, 1
  {
    hide Apart, SourcesUnused, EvalExpr, ExprAvoids, RenSources;
    RenCons(ren, f, outer);
    SameExpr(ren, raw, src, e, [f] + outer, group);
  }

  lemma {:induction false} SameFilter(
      ren: Renaming, raw: Database, src: Sources, e: Expr, frames: seq<Frame>, outer: seq<Frame>)
    requires Apart(ren) && SourcesUnused(ren, src) && ExprFree(ren, raw == src.raw, e)
    ensures Filter(RenSources(ren, raw, src), e, RenFrameList(ren, frames), RenFrameList(ren, outer))
         == RenRows(ren, Filter(src, e, frames, outer))
    decreases e, 1, |frames|
  {
    hide Apart, SourcesUnused, EvalExpr, ExprAvoids, RenSources;
    if frames != [] {
      RenSplit(ren, frames);
      SameExprAt(ren, raw, src, e, frames[0], [frames[0]], outer);
      SameFilter(ren, raw, src, e, frames[1..], outer);
      var rest := Filter(src, e, frames[1..], outer);
      if rest.Some? { RenTogether(ren, [frames[0]], rest.value); RenTogether(ren, [], rest.value); }
    }
  }

  lemma {:induction false} SameJoinRows(
    ren: Renaming, raw: Database, src: Sources, on: Expr, outer_: bool, ls: seq<Frame>, r: Frames, outer: seq<Frame>)
    requires Apart(ren) && SourcesUnused(ren, src) && ExprFree(ren, raw == src.raw, on)
    ensures JoinRows(RenSources(ren, raw, src), on, outer_, RenFrameList(ren, ls), RenFrames(ren, r),
      RenFrameList(ren, outer))
         == RenRows(ren, JoinRows(src, on, outer_, ls, r, outer))
    decreases on, 2, |ls|
  {
    hide Apart, SourcesUnused, EvalExpr, ExprAvoids, RenSources, Filter, NullFrame, Pairings;
    if ls != [] {
      RenSplit(ren, ls);
      SamePairings(ren, ls[0], r.frames);
      SameFilter(ren, raw, src, on, Pairings(ls[0], r.frames), outer);
      SameJoinRows(ren, raw, src, on, outer_, ls[1..], r, outer);
      var matches := Filter(src, on, Pairings(ls[0], r.frames), outer);
      var rest := JoinRows(src, on, outer_, ls[1..], r, outer);
      if matches.Some? && rest.Some? {
        RenTogether(ren, matches.value, rest.value);
        SameNullFrame(ren, r.schema);
        RenJoin(ren, ls[0], NullFrame(r.schema));
        RenCons(ren, ls[0] + NullFrame(r.schema), rest.value);
      }
    }
  }

  lemma SameTable(ren: Renaming, alias: string, rel: Relation)
    ensures RenFrames(ren, Frames([(alias, rel.cols)], BindRows(alias, rel.cols, rel.rows)))
         == Frames([(Called(ren, alias), rel.cols)], BindRows(Called(ren, alias), rel.cols, rel.rows))
  {
    SameBindRows(ren, alias, rel.cols, rel.rows);
    hide BindRows, RenFrameList, Called;
    assert RenSchema(ren, [(alias, rel.cols)]) == [(Called(ren, alias), rel.cols)];
  }

  lemma SameNothing(ren: Renaming)
    ensures RenFrames(ren, Frames([], [[]])) == Frames([], [[]])
  {
    assert RenFrame(ren, []) == [];
    assert RenFrameList(ren, [[]]) == [[]] && RenSchema(ren, []) == [];
  }

  lemma SchemaJoin(ren: Renaming, a: Schema, b: Schema)
    ensures RenSchema(ren, a + b) == RenSchema(ren, a) + RenSchema(ren, b)
  {}

  lemma {:induction false} SameFrom(ren: Renaming, raw: Database, src: Sources, f: From, outer: seq<Frame>)
    requires Apart(ren) && SourcesUnused(ren, src) && FromFree(ren, raw == src.raw, f)
    ensures EvalFrom(RenSources(ren, raw, src), f, RenFrameList(ren, outer)) == RenTable(ren, EvalFrom(src, f, outer))
    ensures EvalFrom(src, f, outer).Some? ==> SchemaUnused(ren, EvalFrom(src, f, outer).value.schema)
    decreases f, 0, 0
  {
    hide Apart, EvalQuery, Avoids, JoinRows, ExprAvoids, ShareAlias, BindRows, RenSchema, RenFrameList;
    match f
    case Nothing => SameNothing(ren);
    case Base(node) =>
      if node < |src.nodes| && src.nodes[node].Some? {
        var s := src.nodes[node].value;
        SameTable(ren, s.alias, s.rel);
      }
    case Derived(q, alias) =>
      SameQuery(ren, raw, src, q, outer);
      var rel := EvalQuery(src, q, outer);
      if rel.Some? { SameTable(ren, alias, rel.value); }
    case Join(l, r, outer_, on) =>
      SameFrom(ren, raw, src, l, outer);
      SameFrom(ren, raw, src, r, outer);
      var a, b := EvalFrom(src, l, outer), EvalFrom(src, r, outer);
      if a.Some? && b.Some? {
        SameCollision(ren, a.value.schema, b.value.schema);
        SameJoinRows(ren, raw, src, on, outer_, a.value.frames, b.value, outer);
        SchemaJoin(ren, a.value.schema, b.value.schema);
      }
  }

  lemma {:induction false} SameKeys(
      ren: Renaming, raw: Database, src: Sources, keys: Exprs, f: Frame, group: seq<Frame>, outer: seq<Frame>)
    requires Apart(ren) && SourcesUnused(ren, src) && ExprsFree(ren, raw == src.raw, keys)
    ensures EvalKeys(RenSources(ren, raw, src), keys, [RenFrame(ren, f)] + RenFrameList(ren, outer),
      RenFrameList(ren, group))
         == EvalKeys(src, keys, [f] + outer, group)
    ensures RenFrameList(ren, [f]) == [RenFrame(ren, f)]
    decreases keys, 0, 0
  {
    hide Apart, SourcesUnused, EvalExpr, ExprAvoids, RenSources;
    if keys.MoreExprs? {
      SameExprAt(ren, raw, src, keys.head, f, group, outer);
      SameKeys(ren, raw, src, keys.tail, f, group, outer);
    }
  }

  lemma {:induction false} SameGroupRows(
      ren: Renaming, raw: Database, src: Sources, keys: Exprs, frames: seq<Frame>, outer: seq<Frame>)
    requires Apart(ren) && SourcesUnused(ren, src) && ExprsFree(ren, raw == src.raw, keys)
    ensures GroupRows(RenSources(ren, raw, src), keys, RenFrameList(ren, frames), RenFrameList(ren, outer))
         == RenGrouping(ren, GroupRows(src, keys, frames, outer))
    decreases keys, 1, |frames|
  {
    hide Apart, SourcesUnused, EvalKeys, ExprsAvoid, RenSources, AddToGroup;
    if frames == [] {
      assert RenGroups(ren, []) == [];
    } else {
      var last := frames[|frames| - 1];
      assert RenFrameList(ren, frames)[..|frames| - 1] == RenFrameList(ren, frames[..|frames| - 1]);
      SameGroupRows(ren, raw, src, keys, frames[..|frames| - 1], outer);
      SameKeys(ren, raw, src, keys, last, [last], outer);
      var groups := GroupRows(src, keys, frames[..|frames| - 1], outer);
      var key := EvalKeys(src, keys, [last] + outer, [last]);
      var renamed := RenFrameList(ren, frames);
      assert renamed[|renamed| - 1] == RenFrame(ren, last) && |renamed| == |frames|;
      if groups.Some? && key.Some? { SameAddToGroup(ren, groups.value, key.value, last); }
    }
  }

  lemma {:induction false} SameKeep(
      ren: Renaming, raw: Database, src: Sources, e: Expr, cs: seq<Context>, outer: seq<Frame>)
    requires Apart(ren) && SourcesUnused(ren, src) && ExprFree(ren, raw == src.raw, e)
    ensures Keep(RenSources(ren, raw, src), e, RenContexts(ren, cs), RenFrameList(ren, outer))
         == RenKept(ren, Keep(src, e, cs, outer))
    decreases e, 1, |cs|
  {
    hide Apart, SourcesUnused, EvalExpr, ExprAvoids, RenSources;
    if cs != [] {
      hide RenContexts, RenFrame, RenFrameList;
      ContextsSplit(ren, cs);
      SameExprAt(ren, raw, src, e, cs[0].current, cs[0].group, outer);
      SameKeep(ren, raw, src, e, cs[1..], outer);
      var rest := Keep(src, e, cs[1..], outer);
      if rest.Some? { KeptMore(ren, cs[0], rest.value); }
    }
  }

  lemma {:induction false} SameProjectRow(
      ren: Renaming, raw: Database, src: Sources, items: Items, c: Context, outer: seq<Frame>)
    requires Apart(ren) && SourcesUnused(ren, src) && ItemsFree(ren, raw == src.raw, items)
    ensures ProjectRow(RenSources(ren, raw, src), items, RenContext(ren, c), RenFrameList(ren, outer))
         == ProjectRow(src, items, c, outer)
    decreases items, 0, 0
  {
    hide Apart, SourcesUnused, EvalExpr, ExprAvoids, RenSources, AllVals, AliasVals, RenFrame, RenFrameList;
    match items
    case NoItems =>
    case Column(e, _, rest) =>
      SameExprAt(ren, raw, src, e, c.current, c.group, outer);
      SameProjectRow(ren, raw, src, rest, c, outer);
    case Star(rest) =>
      SameAllVals(ren, c.current);
      SameProjectRow(ren, raw, src, rest, c, outer);
    case QualifiedStar(alias, rest) =>
      SameAliasVals(ren, c.current, alias);
      SameProjectRow(ren, raw, src, rest, c, outer);
  }

  lemma {:induction false} SameProjectAll(
      ren: Renaming, raw: Database, src: Sources, items: Items, cs: seq<Context>, outer: seq<Frame>)
    requires Apart(ren) && SourcesUnused(ren, src) && ItemsFree(ren, raw == src.raw, items)
    ensures ProjectAll(RenSources(ren, raw, src), items, RenContexts(ren, cs), RenFrameList(ren, outer))
         == ProjectAll(src, items, cs, outer)
    decreases items, 1, |cs|
  {
    hide Apart, SourcesUnused, ProjectRow, ItemsAvoid, RenSources, RenFrameList;
    if cs != [] {
      ContextsSplit(ren, cs);
      SameProjectRow(ren, raw, src, items, cs[0], outer);
      SameProjectAll(ren, raw, src, items, cs[1..], outer);
    }
  }

  lemma {:induction false} SameSortKeys(
      ren: Renaming, raw: Database, src: Sources, keys: Exprs, cs: seq<Context>, outer: seq<Frame>)
    requires Apart(ren) && SourcesUnused(ren, src) && ExprsFree(ren, raw == src.raw, keys)
    ensures SortKeys(RenSources(ren, raw, src), keys, RenContexts(ren, cs), RenFrameList(ren, outer))
         == SortKeys(src, keys, cs, outer)
    decreases keys, 1, |cs|
  {
    hide Apart, SourcesUnused, EvalKeys, ExprsAvoid, RenSources, RenFrameList;
    if cs != [] {
      ContextsSplit(ren, cs);
      SameKeys(ren, raw, src, keys, cs[0].current, cs[0].group, outer);
      SameSortKeys(ren, raw, src, keys, cs[1..], outer);
    }
  }

  lemma {:induction false} SameContexts(
      ren: Renaming, raw: Database, src: Sources, keys: Exprs, grouped: bool, f: Frames, outer: seq<Frame>)
    requires Apart(ren) && SourcesUnused(ren, src) && ExprsFree(ren, raw == src.raw, keys)
    ensures Contexts(RenSources(ren, raw, src), keys, grouped, RenFrames(ren, f), RenFrameList(ren, outer))
         == RenKept(ren, Contexts(src, keys, grouped, f, outer))
    decreases keys, 2, 0
  {
    hide Apart, SourcesUnused, GroupRows, ExprsAvoid, RenSources, NullFrame, Solo, GroupContexts;
    SameSolo(ren, f.frames);
    SameNullFrame(ren, f.schema);
    if grouped {
      if keys.NoExprs? {
        assert RenGroups(ren, [([], f.frames)]) == [([], RenFrameList(ren, f.frames))];
        SameGroupContexts(ren, [([], f.frames)], NullFrame(f.schema));
      } else {
        SameGroupRows(ren, raw, src, keys, f.frames, outer);
        var groups := GroupRows(src, keys, f.frames, outer);
        if groups.Some? { SameGroupContexts(ren, groups.value, NullFrame(f.schema)); }
      }
    }
  }

  /** Main result: renaming the tables leaves the result, or the error, exactly as it was. */
  lemma {:induction false} SameQuery(ren: Renaming, raw: Database, src: Sources, q: Query, outer: seq<Frame>)
    requires Apart(ren) && SourcesUnused(ren, src) && QueryFree(ren, raw == src.raw, q)
    ensures EvalQuery(RenSources(ren, raw, src), q, RenFrameList(ren, outer)) == EvalQuery(src, q, outer)
    decreases q, 0, 0
  {
    hide Apart, SourcesUnused, RenSources, RenFrameList, RenSchema, RenContexts, EvalFrom, Filter, Contexts, Keep,
      ProjectAll, SortKeys, ItemCols, ItemsAvoid, FromAvoids, ExprAvoids, ExprsAvoid, Finish, Zip, Dedupe;
    match q
    case Union(l, r, _) =>
      SameQuery(ren, raw, src, l, outer);
      SameQuery(ren, raw, src, r, outer);
    case Select(items, from, where_, grouped, groupBy, having, _, orderBy, _) =>
      SameFrom(ren, raw, src, from, outer);
      var all := EvalFrom(src, from, outer);
      if all.Some? {
        SameItemCols(ren, raw == src.raw, items, all.value.schema);
        SameFilter(ren, raw, src, where_, all.value.frames, outer);
        var frames := Filter(src, where_, all.value.frames, outer);
        if frames.Some? {
          SameContexts(ren, raw, src, groupBy, grouped, Frames(all.value.schema, frames.value), outer);
          var contexts := Contexts(src, groupBy, grouped, Frames(all.value.schema, frames.value), outer);
          if contexts.Some? {
            SameKeep(ren, raw, src, having, contexts.value, outer);
            var kept := Keep(src, having, contexts.value, outer);
            if kept.Some? {
              SameProjectAll(ren, raw, src, items, kept.value, outer);
              SameSortKeys(ren, raw, src, orderBy, kept.value, outer);
            }
          }
        }
      }
  }
}
