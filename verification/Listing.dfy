/** The paginated stream listing: the SQL the database repository builds, against the filter chain of the
    in-memory repository. */
module Listing {
  import opened Options
  import opened Sql
  import Like

  datatype Predicate = Predicate(
    status: Option<string>,
    visibility: Option<string>,
    ownerOnly: Option<bool>,
    q: Option<string>,
    tagId: Option<int>)

  const NO_FILTER := Predicate(None, None, None, None, None)

  /** An absent filter is the filter with every field absent. */
  function FieldsOf(filter: Option<Predicate>): Predicate {
    if filter.Some? then filter.value else NO_FILTER
  }

  /** JavaScript truthiness of an optional string: the empty string counts as absent. */
  predicate Truthy(o: Option<string>) {
    o.Some? && o.value != ""
  }

  predicate OwnerOnly(f: Predicate) {
    f.ownerOnly == Some(true)
  }

  // ----- The in-memory repository -----

  function Where<T>(keep: T -> bool, rows: seq<T>): (r: seq<T>)
    ensures |r| <= |rows|
  {
    if rows == [] then []
    else (if keep(rows[0]) then [rows[0]] else []) + Where(keep, rows[1..])
  }

  /** The set of streams carrying a tag; without a tag repository, none. */
  function StreamIdsForTag(tags: Option<set<TagRow>>, tagId: int): set<int> {
    if tags.Some? then set t | t in tags.value && t.tagId == tagId :: t.streamId else {}
  }

  predicate SearchHits(fold: char -> char, s: Stream, q: string) {
    HasText(fold, s.name, q) || HasText(fold, if s.description.Some? then s.description.value else "", q)
  }

  /** `value.toLowerCase().includes(q.toLowerCase())`, scanning the positions. */
  predicate HasText(fold: char -> char, value: string, q: string) {
    exists i | 0 <= i <= |value| :: Like.OccursAt(Like.Fold(fold, value), Like.Fold(fold, q), i)
  }

  function StatusIs(status: string): Stream -> bool {
    (s: Stream) => s.status == status
  }

  function OwnedBy(viewer: int): Stream -> bool {
    (s: Stream) => s.userId == viewer
  }

  function VisibleTo(viewer: int): Stream -> bool {
    (s: Stream) => s.visibility == "public" || s.userId == viewer
  }

  function VisibilityIs(visibility: string): Stream -> bool {
    (s: Stream) => s.visibility == visibility
  }

  function Hits(fold: char -> char, q: string): Stream -> bool {
    (s: Stream) => SearchHits(fold, s, q)
  }

  function IdIn(ids: set<int>): Stream -> bool {
    (s: Stream) => s.id in ids
  }

  /** `listFiltered` before its sort: the filters in the order the code applies them. */
  function ListFiltered(rows: seq<Stream>, viewer: int, filter: Option<Predicate>, fold: char -> char,
                        tags: Option<set<TagRow>>): seq<Stream> {
    var f := FieldsOf(filter);
    var r1 := if Truthy(f.status) then Where(StatusIs(f.status.value), rows) else rows;
    var r2 := if OwnerOnly(f) then Where(OwnedBy(viewer), r1) else Where(VisibleTo(viewer), r1);
    var r3 := if Truthy(f.visibility) then Where(VisibilityIs(f.visibility.value), r2) else r2;
    var r4 := if Truthy(f.q) then Where(Hits(fold, f.q.value), r3) else r3;
    if f.tagId.Some? then Where(IdIn(StreamIdsForTag(tags, f.tagId.value)), r4) else r4
  }

  // ----- The query builder -----

  /** The pushed conditions and parameters. */
  datatype Built = Built(conditions: seq<seq<Token>>, params: seq<Value>)

  function AclText(ownerOnly: bool): seq<Token> {
    if ownerOnly then [Col(UserId), Equals, Param(1)]
    else [LParen, Col(Visibility), Equals, Text("public"), Or, Col(UserId), Equals, Param(1), RParen]
  }

  function EqualsText(c: Column, n: nat): seq<Token> {
    [Col(c), Equals, Param(n)]
  }

  function SearchText(n: nat): seq<Token> {
    [LParen, Col(Name), ILike, Param(n), EscapeWord, Text("\\"), Or,
     Col(Description), ILike, Param(n), EscapeWord, Text("\\"), RParen]
  }

  function TagText(n: nat): seq<Token> {
    [Exists, LParen, SelectFromTags, Col(TagsStreamId), Equals, Col(StreamsId), And,
     Col(TagsTagId), Equals, Param(n), RParen]
  }

  function Push(b: Built, text: seq<Token>, params: seq<Value>): Built {
    Built(b.conditions + [text], b.params + params)
  }

  function BuildAcl(viewer: int, f: Predicate): Built {
    Built([AclText(OwnerOnly(f))], [Number(viewer)])
  }

  function BuildStatus(b: Built, f: Predicate): Built {
    if Truthy(f.status) then Push(b, EqualsText(Status, |b.params| + 1), [Chars(f.status.value)]) else b
  }

  function BuildVisibility(b: Built, f: Predicate): Built {
    if Truthy(f.visibility) then Push(b, EqualsText(Visibility, |b.params| + 1), [Chars(f.visibility.value)]) else b
  }

  function BuildSearch(b: Built, f: Predicate): Built {
    if Truthy(f.q) then Push(b, SearchText(|b.params| + 1), [Chars(Like.SearchPattern(f.q.value))]) else b
  }

  function BuildTag(b: Built, f: Predicate): Built {
    if f.tagId.Some? then Push(b, TagText(|b.params| + 1), [Number(f.tagId.value)]) else b
  }

  function Build(viewer: int, filter: Option<Predicate>): Built {
    var f := FieldsOf(filter);
    BuildTag(BuildSearch(BuildVisibility(BuildStatus(BuildAcl(viewer, f), f), f), f), f)
  }

  /** `conditions.join(" AND ")`. */
  function Join(conditions: seq<seq<Token>>): seq<Token> {
    if conditions == [] then []
    else if |conditions| == 1 then conditions[0]
    else conditions[0] + [And] + Join(conditions[1..])
  }

  /** The statement the repository sends: one WHERE text for the count and the page, and the numbers of the
      placeholders after LIMIT and OFFSET. */
  datatype Query = Query(where: seq<Token>, params: seq<Value>, itemParams: seq<Value>, limitAt: nat, offsetAt: nat)

  lemma FilterFields(filter: Option<Predicate>)
    ensures var f := FieldsOf(filter);
            if filter.Some? then f == filter.value
            else !Truthy(f.status) && !Truthy(f.visibility) && !Truthy(f.q) && f.tagId.None? && !OwnerOnly(f)
    ensures filter.Some? ==> (OwnerOnly(filter.value) <==> filter.value.ownerOnly == Some(true))
  {
  }

  /** What each step of the builder pushes. */
  lemma Pushes(b: Built, viewer: int, f: Predicate)
    ensures BuildAcl(viewer, f) == Built([AclText(OwnerOnly(f))], [Number(viewer)])
    ensures BuildStatus(b, f) ==
            if !Truthy(f.status) then b
            else Built(b.conditions + [EqualsText(Status, |b.params| + 1)], b.params + [Chars(f.status.value)])
    ensures BuildVisibility(b, f) ==
            if !Truthy(f.visibility) then b
            else Built(b.conditions + [EqualsText(Visibility, |b.params| + 1)], b.params + [Chars(f.visibility.value)])
    ensures BuildSearch(b, f) ==
            if !Truthy(f.q) then b
            else Built(b.conditions + [SearchText(|b.params| + 1)], b.params + [Chars(Like.SearchPattern(f.q.value))])
    ensures BuildTag(b, f) ==
            if f.tagId.None? then b
            else Built(b.conditions + [TagText(|b.params| + 1)], b.params + [Number(f.tagId.value)])
  {
    hide AclText, EqualsText, SearchText, TagText, Like.SearchPattern;
  }

  lemma BuiltInSteps(viewer: int, filter: Option<Predicate>)
    ensures var f := FieldsOf(filter);
            Build(viewer, filter) ==
            BuildTag(BuildSearch(BuildVisibility(BuildStatus(BuildAcl(viewer, f), f), f), f), f)
  {
    hide BuildAcl, BuildStatus, BuildVisibility, BuildSearch, BuildTag;
  }

  lemma TruthyIsSome(s: Option<string>)
    ensures Truthy(s) ==> s.Some?
  {
  }

  /** The conditions and parameters, pushed one by one. */
  method PushConditions(viewer: int, filter: Option<Predicate>)
    returns (conditions: seq<seq<Token>>, params: seq<Value>)
    ensures Built(conditions, params) == Build(viewer, filter)
  {
    hide *;
    ghost var f := FieldsOf(filter);
    FilterFields(filter);
    BuiltInSteps(viewer, filter);
    params := [Number(viewer)];
    conditions := [];
    if filter.Some? && filter.value.ownerOnly == Some(true) {
      conditions := conditions + [AclText(true)];
    } else {
      conditions := conditions + [AclText(false)];
    }
    ghost var b := BuildAcl(viewer, f);
    Pushes(b, viewer, f);
    assert Built(conditions, params) == b;
    if filter.Some? && Truthy(filter.value.status) {
      TruthyIsSome(filter.value.status);
      params := params + [Chars(filter.value.status.value)];
      conditions := conditions + [EqualsText(Status, |params|)];
    }
    b := BuildStatus(b, f);
    Pushes(b, viewer, f);
    if filter.Some? && Truthy(filter.value.visibility) {
      TruthyIsSome(filter.value.visibility);
      params := params + [Chars(filter.value.visibility.value)];
      conditions := conditions + [EqualsText(Visibility, |params|)];
    }
    b := BuildVisibility(b, f);
    Pushes(b, viewer, f);
    if filter.Some? && Truthy(filter.value.q) {
      TruthyIsSome(filter.value.q);
      params := params + [Chars(Like.SearchPattern(filter.value.q.value))];
      conditions := conditions + [SearchText(|params|)];
    }
    b := BuildSearch(b, f);
    Pushes(b, viewer, f);
    if filter.Some? && filter.value.tagId.Some? {
      params := params + [Number(filter.value.tagId.value)];
      conditions := conditions + [TagText(|params|)];
    }
  }

  /** The builder itself: the pushed conditions joined, and the parameters of the page behind theirs. */
  method ListPaginated(page: int, limit: int, viewer: int, filter: Option<Predicate>) returns (query: Query)
    ensures query.where == Join(Build(viewer, filter).conditions) && query.params == Build(viewer, filter).params
    ensures query.itemParams == query.params + [Number(limit), Number((page - 1) * limit)]
    ensures query.limitAt == |query.params| + 1 && query.itemParams[query.limitAt - 1] == Number(limit)
    ensures query.offsetAt == |query.params| + 2 && query.itemParams[query.offsetAt - 1] == Number((page - 1) * limit)
  {
    hide *;
    var offset := (page - 1) * limit;
    var conditions, params := PushConditions(viewer, filter);
    var itemParams := params + [Number(limit), Number(offset)];
    query := Query(Join(conditions), params, itemParams, |itemParams| - 1, |itemParams|);
  }

  // ----- Parsing the joined text -----

  /** `text` reads as the single condition `c`, whatever follows it. */
  ghost predicate Denotes(text: seq<Token>, c: Condition) {
    forall rest :: ParsePrimary(text + rest) == Some(Parsed(c, rest))
  }

  function AllOf(cs: seq<Condition>): Condition
    requires cs != []
  {
    if |cs| == 1 then cs[0] else Both(cs[0], AllOf(cs[1..]))
  }

  lemma {:induction false} JoinParsesAsAnd(texts: seq<seq<Token>>, cs: seq<Condition>)
    requires |texts| == |cs| > 0 && forall i | 0 <= i < |texts| :: Denotes(texts[i], cs[i])
    ensures ParseAnd(Join(texts)) == Some(Parsed(AllOf(cs), []))
    decreases |texts|
  {
    hide ParsePrimary;
    assert Denotes(texts[0], cs[0]);
    if |texts| == 1 {
      assert texts[0] + [] == texts[0];
    } else {
      var tail := [And] + Join(texts[1..]);
      assert Join(texts) == texts[0] + tail && tail[1..] == Join(texts[1..]);
      JoinParsesAsAnd(texts[1..], cs[1..]);
      hide Join, Denotes;
    }
  }

  lemma ComparisonDenotes(l: Token, r: Token)
    requires OperandOf(l).Some? && OperandOf(r).Some?
    ensures Denotes([l, Equals, r], Equal(OperandOf(l).value, OperandOf(r).value))
  {
    forall rest
      ensures ParsePrimary([l, Equals, r] + rest) == Some(Parsed(Equal(OperandOf(l).value, OperandOf(r).value), rest))
    {
      assert ([l, Equals, r] + rest)[3..] == rest;
    }
  }

  lemma LikeDenotes(v: Token, p: Token, e: Token)
    requires OperandOf(v).Some? && OperandOf(p).Some? && OperandOf(e).Some?
    ensures Denotes([v, ILike, p, EscapeWord, e], Like(OperandOf(v).value, OperandOf(p).value, OperandOf(e).value))
  {
    forall rest
      ensures ParsePrimary([v, ILike, p, EscapeWord, e] + rest)
              == Some(Parsed(Like(OperandOf(v).value, OperandOf(p).value, OperandOf(e).value), rest))
    {
      assert ([v, ILike, p, EscapeWord, e] + rest)[5..] == rest;
    }
  }

  /** Two conditions joined by OR up to a closing parenthesis. */
  lemma EitherCloses(a: seq<Token>, b: seq<Token>, ca: Condition, cb: Condition, rest: seq<Token>)
    requires Denotes(a, ca) && Denotes(b, cb)
    ensures ParseClosed(a + ([Or] + (b + ([RParen] + rest)))) == Some(Parsed(Either(ca, cb), rest))
  {
    var close := [RParen] + rest;
    var right := b + close;
    var more := [Or] + right;
    assert ParsePrimary(a + more) == Some(Parsed(ca, more));
    assert ParseAnd(a + more) == Some(Parsed(ca, more));
    assert more[1..] == right;
    assert ParsePrimary(right) == Some(Parsed(cb, close));
    assert ParseOr(right) == Some(Parsed(cb, close));
    assert close[1..] == rest;
  }

  lemma ParenthesisedDenotes(a: seq<Token>, b: seq<Token>, ca: Condition, cb: Condition)
    requires Denotes(a, ca) && Denotes(b, cb)
    ensures Denotes([LParen] + a + [Or] + b + [RParen], Either(ca, cb))
  {
    var text := [LParen] + a + [Or] + b + [RParen];
    forall rest ensures ParsePrimary(text + rest) == Some(Parsed(Either(ca, cb), rest)) {
      var tail := a + ([Or] + (b + ([RParen] + rest)));
      EitherCloses(a, b, ca, cb, rest);
      OpensParenthesis(tail);
      hide ParsePrimary, ParseClosed, Denotes;
      assert text + rest == [LParen] + tail;
    }
  }

  lemma OpensParenthesis(tail: seq<Token>)
    ensures ParsePrimary([LParen] + tail) == ParseClosed(tail)
  {
    assert ([LParen] + tail)[1..] == tail;
    hide ParseClosed;
  }

  lemma OpensExists(tail: seq<Token>, c: Condition, rest: seq<Token>)
    requires ParseClosed(tail) == Some(Parsed(c, rest))
    ensures ParsePrimary([Exists, LParen, SelectFromTags] + tail) == Some(Parsed(ExistsTag(c), rest))
  {
    assert ([Exists, LParen, SelectFromTags] + tail)[3..] == tail;
    hide ParseClosed;
  }

  lemma BothCloses(a: seq<Token>, b: seq<Token>, ca: Condition, cb: Condition, rest: seq<Token>)
    requires Denotes(a, ca) && Denotes(b, cb)
    ensures ParseClosed(a + ([And] + (b + ([RParen] + rest)))) == Some(Parsed(Both(ca, cb), rest))
  {
    var close := [RParen] + rest;
    var right := b + close;
    var more := [And] + right;
    assert ParsePrimary(a + more) == Some(Parsed(ca, more));
    assert more[1..] == right;
    assert ParsePrimary(right) == Some(Parsed(cb, close));
    assert ParseAnd(right) == Some(Parsed(cb, close));
    assert ParseAnd(a + more) == Some(Parsed(Both(ca, cb), close));
    assert close[1..] == rest;
  }

  function AclCondition(ownerOnly: bool): Condition {
    var owner := Equal(OfColumn(UserId), OfParam(1));
    if ownerOnly then owner else Either(Equal(OfColumn(Visibility), OfText("public")), owner)
  }

  lemma AclDenotes(ownerOnly: bool)
    ensures Denotes(AclText(ownerOnly), AclCondition(ownerOnly))
  {
    var a, b := [Col(Visibility), Equals, Text("public")], [Col(UserId), Equals, Param(1)];
    ComparisonDenotes(Col(Visibility), Text("public"));
    ComparisonDenotes(Col(UserId), Param(1));
    hide Denotes;
    if !ownerOnly {
      var c := AclCondition(false);
      ParenthesisedDenotes(a, b, c.first, c.second);
      assert [LParen] + a + [Or] + b + [RParen] == AclText(false);
    }
  }

  function SearchCondition(n: nat): Condition {
    Either(Like(OfColumn(Name), OfParam(n), OfText("\\")), Like(OfColumn(Description), OfParam(n), OfText("\\")))
  }

  lemma SearchDenotes(n: nat)
    ensures Denotes(SearchText(n), SearchCondition(n))
  {
    var a := [Col(Name), ILike, Param(n), EscapeWord, Text("\\")];
    var b := [Col(Description), ILike, Param(n), EscapeWord, Text("\\")];
    var c := SearchCondition(n);
    LikeDenotes(Col(Name), Param(n), Text("\\"));
    LikeDenotes(Col(Description), Param(n), Text("\\"));
    hide Denotes;
    ParenthesisedDenotes(a, b, c.first, c.second);
    assert [LParen] + a + [Or] + b + [RParen] == SearchText(n);
  }

  function TagCondition(n: nat): Condition {
    ExistsTag(Both(Equal(OfColumn(TagsStreamId), OfColumn(StreamsId)), Equal(OfColumn(TagsTagId), OfParam(n))))
  }

  lemma TagDenotes(n: nat)
    ensures Denotes(TagText(n), TagCondition(n))
  {
    var a, b := [Col(TagsStreamId), Equals, Col(StreamsId)], [Col(TagsTagId), Equals, Param(n)];
    var c := TagCondition(n);
    ComparisonDenotes(Col(TagsStreamId), Col(StreamsId));
    ComparisonDenotes(Col(TagsTagId), Param(n));
    forall rest ensures ParsePrimary(TagText(n) + rest) == Some(Parsed(c, rest)) {
      var tail := a + ([And] + (b + ([RParen] + rest)));
      BothCloses(a, b, c.inner.first, c.inner.second, rest);
      OpensExists(tail, c.inner, rest);
      hide ParsePrimary, ParseClosed, Denotes;
      assert TagText(n) + rest == [Exists, LParen, SelectFromTags] + tail;
    }
  }

  // ----- What each condition keeps -----

  /** The builder's text denotes `cs`, and every placeholder is a parameter pushed so far. */
  ghost predicate Compiles(b: Built, cs: seq<Condition>) {
    && |b.conditions| == |cs| > 0
    && (forall i | 0 <= i < |cs| :: Denotes(b.conditions[i], cs[i]) && Bound(cs[i], |b.params|))
  }

  ghost predicate AllTrue(cs: seq<Condition>, env: Env, row: Stream) {
    forall i | 0 <= i < |cs| :: Eval(cs[i], env, row, None) == True
  }

  lemma PushCompiles(b: Built, cs: seq<Condition>, text: seq<Token>, c: Condition, params: seq<Value>)
    requires Compiles(b, cs) && Denotes(text, c) && Bound(c, |b.params| + |params|)
    ensures Compiles(Push(b, text, params), cs + [c])
  {
    forall i | 0 <= i < |cs| ensures Bound(cs[i], |b.params| + |params|) {
      BoundIsMonotone(cs[i], |b.params|, |b.params| + |params|);
    }
  }

  lemma {:induction false} BoundIsMonotone(c: Condition, n: nat, m: nat)
    requires Bound(c, n) && n <= m
    ensures Bound(c, m)
  {
    match c
    case Both(l, r) => BoundIsMonotone(l, n, m); BoundIsMonotone(r, n, m);
    case Either(l, r) => BoundIsMonotone(l, n, m); BoundIsMonotone(r, n, m);
    case ExistsTag(inner) => BoundIsMonotone(inner, n, m);
    case _ =>
  }

  function EnvOf(b: Built, fold: char -> char, tags: set<TagRow>): Env {
    Env(b.params, fold, tags)
  }

  /** Pushing one more condition narrows the rows to those that meet it as well. */
  lemma PushNarrows(b: Built, cs: seq<Condition>, text: seq<Token>, c: Condition, params: seq<Value>,
                    fold: char -> char, tags: set<TagRow>, row: Stream)
    requires Compiles(b, cs)
    ensures AllTrue(cs + [c], EnvOf(Push(b, text, params), fold, tags), row)
            <==> AllTrue(cs, EnvOf(b, fold, tags), row)
                 && Eval(c, EnvOf(Push(b, text, params), fold, tags), row, None) == True
  {
    var env, env' := EnvOf(b, fold, tags), EnvOf(Push(b, text, params), fold, tags);
    forall i | 0 <= i < |cs| ensures Eval(cs[i], env', row, None) == Eval(cs[i], env, row, None) {
      LaterParamsDoNotMatter(cs[i], env, params, row, None);
    }
    assert forall i | 0 <= i < |cs| :: (cs + [c])[i] == cs[i];
    assert (cs + [c])[|cs|] == c;
  }

  lemma AllOfIsAllTrue(cs: seq<Condition>, env: Env, row: Stream)
    requires cs != []
    ensures Eval(AllOf(cs), env, row, None) == True <==> AllTrue(cs, env, row)
    decreases |cs|
  {
    if |cs| > 1 {
      AllOfIsAllTrue(cs[1..], env, row);
      assert AllTrue(cs, env, row) <==> Eval(cs[0], env, row, None) == True && AllTrue(cs[1..], env, row) by {
        assert forall i | 0 <= i < |cs| - 1 :: cs[1..][i] == cs[i + 1];
        assert forall i | 0 < i < |cs| :: cs[i] == cs[1..][i - 1];
      }
    }
  }

  /** The joined WHERE text selects the rows for which every pushed condition is true. */
  lemma WhereSelects(b: Built, cs: seq<Condition>, env: Env, row: Stream)
    requires Compiles(b, cs)
    ensures ParseWhere(Join(b.conditions)) == Some(AllOf(cs))
    ensures Selects(Join(b.conditions), env, row) <==> AllTrue(cs, env, row)
  {
    JoinParsesAsAnd(b.conditions, cs);
    AllOfIsAllTrue(cs, env, row);
  }

  // ----- Agreement -----

  /** A row as the in-memory filters judge it, one row at a time. */
  ghost predicate Keeps(s: Stream, viewer: int, f: Predicate, fold: char -> char, tags: set<TagRow>) {
    && KeepsAcl(s, viewer, f)
    && (Truthy(f.status) ==> s.status == f.status.value)
    && (Truthy(f.visibility) ==> s.visibility == f.visibility.value)
    && (Truthy(f.q) ==> SearchHits(fold, s, f.q.value))
    && (f.tagId.Some? ==> TagRow(s.id, f.tagId.value) in tags)
  }

  predicate KeepsAcl(s: Stream, viewer: int, f: Predicate) {
    if OwnerOnly(f) then s.userId == viewer else s.visibility == "public" || s.userId == viewer
  }

  lemma HasTextIsIncludes(fold: char -> char, value: string, q: string)
    ensures HasText(fold, value, q) <==> Like.Includes(Like.Fold(fold, value), Like.Fold(fold, q))
  {
    if Like.Includes(Like.Fold(fold, value), Like.Fold(fold, q)) {
      var i :| Like.OccursAt(Like.Fold(fold, value), Like.Fold(fold, q), i);
      assert 0 <= i <= |value|;
    }
  }

  /** The search condition is true exactly when the search hits; a NULL description is no hit and no error. */
  lemma SearchMeans(env: Env, n: nat, q: string, s: Stream)
    requires 1 <= n <= |env.params| && env.params[n - 1] == Chars(Like.SearchPattern(q))
    requires Like.FoldsCleanly(env.fold) && q != ""
    ensures Eval(SearchCondition(n), env, s, None) == True <==> SearchHits(env.fold, s, q)
  {
    Like.LiteralSearch(env.fold, s.name, q);
    HasTextIsIncludes(env.fold, s.name, q);
    HasTextIsIncludes(env.fold, "", q);
    if s.description.Some? {
      Like.LiteralSearch(env.fold, s.description.value, q);
      HasTextIsIncludes(env.fold, s.description.value, q);
    } else {
      forall i ensures !Like.OccursAt(Like.Fold(env.fold, ""), Like.Fold(env.fold, q), i) {
      }
    }
  }

  lemma TagMeans(env: Env, n: nat, tagId: int, s: Stream)
    requires 1 <= n <= |env.params| && env.params[n - 1] == Number(tagId)
    ensures Eval(TagCondition(n), env, s, None) == True <==> TagRow(s.id, tagId) in env.tags
  {
    var inner := TagCondition(n).inner;
    forall t: TagRow ensures Eval(inner, env, s, Some(t)) == True <==> t == TagRow(s.id, tagId) {
      assert Eval(inner.first, env, s, Some(t)) == TruthOf(Number(t.streamId) == Number(s.id));
      assert Eval(inner.second, env, s, Some(t)) == TruthOf(Number(t.tagId) == Number(tagId));
    }
  }

  // The conditions each step pushes, given the number of its placeholder.

  function StatusPart(f: Predicate, n: nat): seq<Condition> {
    if Truthy(f.status) then [Equal(OfColumn(Status), OfParam(n))] else []
  }

  function VisibilityPart(f: Predicate, n: nat): seq<Condition> {
    if Truthy(f.visibility) then [Equal(OfColumn(Visibility), OfParam(n))] else []
  }

  function SearchPart(f: Predicate, n: nat): seq<Condition> {
    if Truthy(f.q) then [SearchCondition(n)] else []
  }

  function TagPart(f: Predicate, n: nat): seq<Condition> {
    if f.tagId.Some? then [TagCondition(n)] else []
  }

  /** One more step of the builder, taken or not. */
  lemma Extends(b: Built, cs: seq<Condition>, taken: bool, text: seq<Token>, c: Condition, v: Value,
                fold: char -> char, tags: set<TagRow>, row: Stream)
    requires Compiles(b, cs) && (taken ==> Denotes(text, c) && Bound(c, |b.params| + 1))
    ensures var b' := if taken then Push(b, text, [v]) else b;
            var cs' := cs + (if taken then [c] else []);
            && Compiles(b', cs')
            && (AllTrue(cs', EnvOf(b', fold, tags), row)
                <==> AllTrue(cs, EnvOf(b, fold, tags), row)
                     && (taken ==> Eval(c, EnvOf(b', fold, tags), row, None) == True))
  {
    if taken {
      PushCompiles(b, cs, text, c, [v]);
      PushNarrows(b, cs, text, c, [v], fold, tags, row);
    } else {
      assert cs + [] == cs;
    }
  }

  lemma StatusStep(b: Built, cs: seq<Condition>, f: Predicate, fold: char -> char, tags: set<TagRow>, row: Stream)
    requires Compiles(b, cs)
    ensures var b', cs' := BuildStatus(b, f), cs + StatusPart(f, |b.params| + 1);
            && Compiles(b', cs')
            && (AllTrue(cs', EnvOf(b', fold, tags), row) <==>
                  AllTrue(cs, EnvOf(b, fold, tags), row) && (Truthy(f.status) ==> row.status == f.status.value))
  {
    hide Denotes, AllTrue, Compiles;
    var n := |b.params| + 1;
    ComparisonDenotes(Col(Status), Param(n));
    Extends(b, cs, Truthy(f.status), EqualsText(Status, n), Equal(OfColumn(Status), OfParam(n)),
            if Truthy(f.status) then Chars(f.status.value) else Null, fold, tags, row);
  }

  lemma VisibilityStep(b: Built, cs: seq<Condition>, f: Predicate, fold: char -> char, tags: set<TagRow>, row: Stream)
    requires Compiles(b, cs)
    ensures var b', cs' := BuildVisibility(b, f), cs + VisibilityPart(f, |b.params| + 1);
            && Compiles(b', cs')
            && (AllTrue(cs', EnvOf(b', fold, tags), row) <==>
                  AllTrue(cs, EnvOf(b, fold, tags), row) &&
                      (Truthy(f.visibility) ==> row.visibility == f.visibility.value))
  {
    hide Denotes, AllTrue, Compiles;
    var n := |b.params| + 1;
    ComparisonDenotes(Col(Visibility), Param(n));
    Extends(b, cs, Truthy(f.visibility), EqualsText(Visibility, n), Equal(OfColumn(Visibility), OfParam(n)),
            if Truthy(f.visibility) then Chars(f.visibility.value) else Null, fold, tags, row);
  }

  lemma SearchStep(b: Built, cs: seq<Condition>, f: Predicate, fold: char -> char, tags: set<TagRow>, row: Stream)
    requires Compiles(b, cs) && Like.FoldsCleanly(fold)
    ensures var b', cs' := BuildSearch(b, f), cs + SearchPart(f, |b.params| + 1);
            && Compiles(b', cs')
            && (AllTrue(cs', EnvOf(b', fold, tags), row) <==>
                  AllTrue(cs, EnvOf(b, fold, tags), row) && (Truthy(f.q) ==> SearchHits(fold, row, f.q.value)))
  {
    hide Denotes, AllTrue, Compiles, Like.FoldsCleanly, SearchHits, Like.SearchPattern, SearchText, Eval;
    var n := |b.params| + 1;
    SearchDenotes(n);
    Extends(b, cs, Truthy(f.q), SearchText(n), SearchCondition(n),
            if Truthy(f.q) then Chars(Like.SearchPattern(f.q.value)) else Null, fold, tags, row);
    if Truthy(f.q) {
      SearchMeans(EnvOf(BuildSearch(b, f), fold, tags), n, f.q.value, row);
    }
  }

  lemma TagStep(b: Built, cs: seq<Condition>, f: Predicate, fold: char -> char, tags: set<TagRow>, row: Stream)
    requires Compiles(b, cs)
    ensures var b', cs' := BuildTag(b, f), cs + TagPart(f, |b.params| + 1);
            && Compiles(b', cs')
            && (AllTrue(cs', EnvOf(b', fold, tags), row) <==>
                  AllTrue(cs, EnvOf(b, fold, tags), row) && (f.tagId.Some? ==> TagRow(row.id, f.tagId.value) in tags))
  {
    hide Denotes, AllTrue, Compiles, TagText, Eval;
    var n := |b.params| + 1;
    TagDenotes(n);
    Extends(b, cs, f.tagId.Some?, TagText(n), TagCondition(n),
            if f.tagId.Some? then Number(f.tagId.value) else Null, fold, tags, row);
    if f.tagId.Some? {
      TagMeans(EnvOf(BuildTag(b, f), fold, tags), n, f.tagId.value, row);
    }
  }

  /** The whole builder: its text denotes a list of conditions, all of them over pushed parameters, and they
      are all true of a row exactly when the in-memory filters keep it. */
  lemma BuildMeans(viewer: int, f: Predicate, fold: char -> char, tags: set<TagRow>, row: Stream)
    returns (cs: seq<Condition>)
    requires Like.FoldsCleanly(fold)
    ensures var b := Build(viewer, Some(f));
            && Compiles(b, cs)
            && (AllTrue(cs, EnvOf(b, fold, tags), row) <==> Keeps(row, viewer, f, fold, tags))
  {
    hide AllTrue, Compiles, Like.FoldsCleanly, SearchHits, BuildAcl, BuildStatus, BuildVisibility, BuildSearch,
        BuildTag, KeepsAcl;
    var b1 := BuildAcl(viewer, f);
    cs := [AclCondition(OwnerOnly(f))];
    AclCompiles(viewer, f, fold, tags, row);
    StatusStep(b1, cs, f, fold, tags, row);
    var b2 := BuildStatus(b1, f);
    cs := cs + StatusPart(f, |b1.params| + 1);
    VisibilityStep(b2, cs, f, fold, tags, row);
    var b3 := BuildVisibility(b2, f);
    cs := cs + VisibilityPart(f, |b2.params| + 1);
    SearchStep(b3, cs, f, fold, tags, row);
    var b4 := BuildSearch(b3, f);
    cs := cs + SearchPart(f, |b3.params| + 1);
    TagStep(b4, cs, f, fold, tags, row);
    cs := cs + TagPart(f, |b4.params| + 1);
  }

  lemma AclCompiles(viewer: int, f: Predicate, fold: char -> char, tags: set<TagRow>, row: Stream)
    ensures var b := BuildAcl(viewer, f);
            var cs := [AclCondition(OwnerOnly(f))];
            Compiles(b, cs) && (AllTrue(cs, EnvOf(b, fold, tags), row) <==> KeepsAcl(row, viewer, f))
  {
    AclDenotes(OwnerOnly(f));
    var cs := [AclCondition(OwnerOnly(f))];
    assert AllTrue(cs, EnvOf(BuildAcl(viewer, f), fold, tags), row)
           <==> Eval(cs[0], EnvOf(BuildAcl(viewer, f), fold, tags), row, None) == True;
  }

  /** Meaning preserved: for every filter, viewer, row and tag relation, the built WHERE text with its numbered
      placeholders selects a row exactly when the in-memory filters keep it; and appending the page's LIMIT and
      OFFSET parameters changes nothing. */
  lemma QueryKeepsWhatFiltersKeep(viewer: int, filter: Option<Predicate>, extra: seq<Value>, fold: char -> char,
                                  tags: set<TagRow>, row: Stream)
    requires Like.FoldsCleanly(fold)
    ensures var b := Build(viewer, filter);
            Selects(Join(b.conditions), Env(b.params + extra, fold, tags), row)
            <==> Keeps(row, viewer, FieldsOf(filter), fold, tags)
  {
    var f := FieldsOf(filter);
    var b := Build(viewer, filter);
    assert b == Build(viewer, Some(f));
    hide Build, AllTrue, Keeps, Like.FoldsCleanly, Join, Selects;
    var cs := BuildMeans(viewer, f, fold, tags, row);
    var env := Env(b.params + extra, fold, tags);
    assert env == EnvOf(b, fold, tags).(params := b.params + extra);
    WhereSelects(b, cs, env, row);
    ExtraParamsDoNotMatter(b, cs, extra, fold, tags, row);
  }

  lemma ExtraParamsDoNotMatter(b: Built, cs: seq<Condition>, extra: seq<Value>, fold: char -> char, tags: set<TagRow>,
                               row: Stream)
    requires Compiles(b, cs)
    ensures AllTrue(cs, EnvOf(b, fold, tags).(params := b.params + extra), row)
            <==> AllTrue(cs, EnvOf(b, fold, tags), row)
  {
    forall i | 0 <= i < |cs|
      ensures Eval(cs[i], EnvOf(b, fold, tags).(params := b.params + extra), row, None) ==
              Eval(cs[i], EnvOf(b, fold, tags), row, None)
    {
      LaterParamsDoNotMatter(cs[i], EnvOf(b, fold, tags), extra, row, None);
    }
  }

  // ----- The two result sets -----

  /** The rows of a table that the database returns for the WHERE text, in table order. */
  ghost function SqlRows(rows: seq<Stream>, where: seq<Token>, env: Env): seq<Stream> {
    if rows == [] then []
    else (if Selects(where, env, rows[0]) then [rows[0]] else []) + SqlRows(rows[1..], where, env)
  }

  function Narrow<T>(taken: bool, keep: T -> bool, rows: seq<T>): seq<T> {
    if taken then Where(keep, rows) else rows
  }

  function Maybe<T>(kept: bool, row: T): seq<T> {
    if kept then [row] else []
  }

  /** One filter of the chain, applied to a row that is or is not still there, and then to the others. */
  lemma NarrowHead<T>(taken: bool, keep: T -> bool, kept: bool, row: T, rows: seq<T>)
    ensures Narrow(taken, keep, Maybe(kept, row) + rows)
            == Maybe(kept && (taken ==> keep(row)), row) + Narrow(taken, keep, rows)
  {
    if kept {
      assert ([row] + rows)[1..] == rows;
    } else {
      assert Maybe(kept, row) + rows == rows;
      assert Maybe(false, row) + Narrow(taken, keep, rows) == Narrow(taken, keep, rows);
    }
  }

  /** One row through the chain of in-memory filters. */
  lemma ListFilteredHead(s: Stream, rows: seq<Stream>, viewer: int, filter: Option<Predicate>, fold: char -> char,
                         tags: set<TagRow>)
    ensures ListFiltered([s] + rows, viewer, filter, fold, Some(tags))
            == Maybe(Keeps(s, viewer, FieldsOf(filter), fold, tags), s)
               + ListFiltered(rows, viewer, filter, fold, Some(tags))
  {
    var f := FieldsOf(filter);
    ListFilteredIsNarrowed([s] + rows, viewer, filter, fold, tags);
    ListFilteredIsNarrowed(rows, viewer, filter, fold, tags);
    KeepsAll(s, viewer, f, fold, tags);
    hide Narrow, Keeps, ListFiltered, FieldsOf, Truthy, OwnerOnly;
    hide StatusOf, AclOf, VisibilityOf, HitsOf, TaggedOf;
    var status, acl, visibility := StatusOf(f), AclOf(f, viewer), VisibilityOf(f);
    var hits, tagged := HitsOf(f, fold), TaggedOf(f, tags);
    var r1 := Narrow(Truthy(f.status), status, rows);
    assert Maybe(true, s) + rows == [s] + rows;
    NarrowHead(Truthy(f.status), status, true, s, rows);
    var k1 := Truthy(f.status) ==> status(s);
    var r2 := Narrow(true, acl, r1);
    NarrowHead(true, acl, k1, s, r1);
    var k2 := k1 && acl(s);
    var r3 := Narrow(Truthy(f.visibility), visibility, r2);
    NarrowHead(Truthy(f.visibility), visibility, k2, s, r2);
    var k3 := k2 && (Truthy(f.visibility) ==> visibility(s));
    NarrowHead(Truthy(f.q), hits, k3, s, r3);
    var k4 := k3 && (Truthy(f.q) ==> hits(s));
    NarrowHead(f.tagId.Some?, tagged, k4, s, Narrow(Truthy(f.q), hits, r3));
  }

  function StatusOf(f: Predicate): Stream -> bool {
    StatusIs(if f.status.Some? then f.status.value else "")
  }

  function AclOf(f: Predicate, viewer: int): Stream -> bool {
    if OwnerOnly(f) then OwnedBy(viewer) else VisibleTo(viewer)
  }

  function VisibilityOf(f: Predicate): Stream -> bool {
    VisibilityIs(if f.visibility.Some? then f.visibility.value else "")
  }

  function HitsOf(f: Predicate, fold: char -> char): Stream -> bool {
    Hits(fold, if f.q.Some? then f.q.value else "")
  }

  function TaggedOf(f: Predicate, tags: set<TagRow>): Stream -> bool {
    IdIn(StreamIdsForTag(Some(tags), if f.tagId.Some? then f.tagId.value else 0))
  }

  /** The chain as five filters, each applied or not. */
  lemma ListFilteredIsNarrowed(rows: seq<Stream>, viewer: int, filter: Option<Predicate>, fold: char -> char,
                               tags: set<TagRow>)
    ensures var f := FieldsOf(filter);
            ListFiltered(rows, viewer, filter, fold, Some(tags)) ==
            Narrow(f.tagId.Some?, TaggedOf(f, tags),
                   Narrow(Truthy(f.q), HitsOf(f, fold),
                          Narrow(Truthy(f.visibility), VisibilityOf(f),
                                 Narrow(true, AclOf(f, viewer), Narrow(Truthy(f.status), StatusOf(f), rows)))))
  {
    hide Where, StatusIs, OwnedBy, VisibleTo, VisibilityIs, Hits, IdIn, StreamIdsForTag;
  }

  /** What a row has to pass, filter by filter. */
  lemma KeepsAll(s: Stream, viewer: int, f: Predicate, fold: char -> char, tags: set<TagRow>)
    ensures Keeps(s, viewer, f, fold, tags) <==>
            && (Truthy(f.status) ==> StatusOf(f)(s)) && AclOf(f, viewer)(s)
            && (Truthy(f.visibility) ==> VisibilityOf(f)(s)) && (Truthy(f.q) ==> HitsOf(f, fold)(s))
            && (f.tagId.Some? ==> TaggedOf(f, tags)(s))
  {
    hide SearchHits;
    if f.tagId.Some? {
      TaggedIds(tags, f.tagId.value, s.id);
    }
  }

  lemma TaggedIds(tags: set<TagRow>, tagId: int, id: int)
    ensures id in StreamIdsForTag(Some(tags), tagId) <==> TagRow(id, tagId) in tags
  {
    if TagRow(id, tagId) in tags {
      assert TagRow(id, tagId).streamId == id;
    }
  }

  /** The database and the in-memory repository list the same streams: over any table, the rows the query
      selects are the rows the filter chain leaves, in the same order, so the totals agree as well. */
  lemma {:induction false} SameListing(rows: seq<Stream>, viewer: int, filter: Option<Predicate>, extra: seq<Value>,
                                       fold: char -> char, tags: set<TagRow>)
    requires Like.FoldsCleanly(fold)
    ensures var b := Build(viewer, filter);
            SqlRows(rows, Join(b.conditions), Env(b.params + extra, fold, tags))
            == ListFiltered(rows, viewer, filter, fold, Some(tags))
  {
    hide Build, Selects, Keeps, Join, Like.FoldsCleanly;
    if rows != [] {
      SameListing(rows[1..], viewer, filter, extra, fold, tags);
      QueryKeepsWhatFiltersKeep(viewer, filter, extra, fold, tags, rows[0]);
      ListFilteredHead(rows[0], rows[1..], viewer, filter, fold, tags);
      assert [rows[0]] + rows[1..] == rows;
    } else {
      hide SearchHits;
    }
  }

  lemma {:induction false} ListedAreKept(s: Stream, rows: seq<Stream>, viewer: int, filter: Option<Predicate>,
                                         fold: char -> char, tags: set<TagRow>)
    ensures s in ListFiltered(rows, viewer, filter, fold, Some(tags)) <==>
            s in rows && Keeps(s, viewer, FieldsOf(filter), fold, tags)
  {
    hide Keeps;
    if rows != [] {
      ListFilteredHead(rows[0], rows[1..], viewer, filter, fold, tags);
      ListedAreKept(s, rows[1..], viewer, filter, fold, tags);
      assert rows == [rows[0]] + rows[1..];
      hide ListFiltered;
    } else {
      hide SearchHits;
    }
  }

  /** Who sees what: a listing has exactly the streams of the table that are the viewer's own, or public unless only its
      own are asked for, and that have the status, the visibility and the tag asked for, if any, and the text asked for
      somewhere in their name or description. */
  lemma ListedIff(s: Stream, rows: seq<Stream>, viewer: int, filter: Option<Predicate>, fold: char -> char,
                  tags: set<TagRow>)
    ensures s in ListFiltered(rows, viewer, filter, fold, Some(tags)) <==>
            && s in rows
            && (s.userId == viewer ||
                (s.visibility == "public" && !(filter.Some? && filter.value.ownerOnly == Some(true))))
            && (filter.Some? ==>
                  var f := filter.value;
                  && (f.status.Some? && f.status.value != "" ==> s.status == f.status.value)
                  && (f.visibility.Some? && f.visibility.value != "" ==> s.visibility == f.visibility.value)
                  && (f.tagId.Some? ==> TagRow(s.id, f.tagId.value) in tags)
                  && (f.q.Some? && f.q.value != "" ==>
                        var q := Like.Fold(fold, f.q.value);
                        || Like.Includes(Like.Fold(fold, s.name), q)
                        || (s.description.Some? && Like.Includes(Like.Fold(fold, s.description.value), q))))
  {
    ListedAreKept(s, rows, viewer, filter, fold, tags);
    var f := FieldsOf(filter);
    if Truthy(f.q) {
      HasTextIsIncludes(fold, s.name, f.q.value);
      HasTextIsIncludes(fold, if s.description.Some? then s.description.value else "", f.q.value);
      NothingInEmpty(fold, f.q.value);
    }
    hide ListFiltered, HasText, Like.Includes, Like.Fold;
  }

  lemma NothingInEmpty(fold: char -> char, q: string)
    requires q != ""
    ensures !Like.Includes(Like.Fold(fold, ""), Like.Fold(fold, q))
  {
  }

  /** Without a tag repository the in-memory listing behaves as over an empty tag table. */
  lemma NoTagRepositoryIsEmptyTags(rows: seq<Stream>, viewer: int, filter: Option<Predicate>, fold: char -> char)
    ensures ListFiltered(rows, viewer, filter, fold, None) == ListFiltered(rows, viewer, filter, fold, Some({}))
  {
    var f := FieldsOf(filter);
    if f.tagId.Some? {
      assert StreamIdsForTag(None, f.tagId.value) == StreamIdsForTag(Some({}), f.tagId.value);
    }
  }
}
