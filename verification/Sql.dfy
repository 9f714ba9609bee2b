/** The fragment of SQL the listing query uses: its tokens, a parser with the precedence of AND over OR, and
    its meaning in three-valued logic. */
module Sql {
  import opened Options
  import Like

  datatype Column = UserId | Visibility | Status | Name | Description | StreamsId | TagsStreamId | TagsTagId

  /** `SelectFromTags` stands for the fixed words `SELECT 1 FROM stream_tags st WHERE`. `Param(n)` is `$n`. */
  datatype Token =
    | Col(column: Column)
    | Param(n: nat)
    | Text(text: string)
    | Equals | ILike | EscapeWord | And | Or | LParen | RParen | Exists | SelectFromTags

  datatype Operand = OfColumn(column: Column) | OfParam(n: nat) | OfText(text: string)

  datatype Condition =
    | Equal(left: Operand, right: Operand)
    | Like(value: Operand, pattern: Operand, escape: Operand)
    | Both(first: Condition, second: Condition)
    | Either(first: Condition, second: Condition)
    | ExistsTag(inner: Condition)

  datatype Parsed = Parsed(condition: Condition, rest: seq<Token>)

  function OperandOf(t: Token): Option<Operand> {
    match t
    case Col(c) => Some(OfColumn(c))
    case Param(n) => Some(OfParam(n))
    case Text(s) => Some(OfText(s))
    case _ => None
  }

  function ParseOr(ts: seq<Token>): (r: Option<Parsed>)
    ensures r.Some? ==> |r.value.rest| < |ts|
    decreases |ts|, 2
  {
    match ParseAnd(ts)
    case None => None
    case Some(Parsed(left, rest)) =>
      if rest != [] && rest[0].Or? then
        match ParseOr(rest[1..])
        case None => None
        case Some(Parsed(right, rest')) => Some(Parsed(Either(left, right), rest'))
      else Some(Parsed(left, rest))
  }

  function ParseAnd(ts: seq<Token>): (r: Option<Parsed>)
    ensures r.Some? ==> |r.value.rest| < |ts|
    decreases |ts|, 1
  {
    match ParsePrimary(ts)
    case None => None
    case Some(Parsed(left, rest)) =>
      if rest != [] && rest[0].And? then
        match ParseAnd(rest[1..])
        case None => None
        case Some(Parsed(right, rest')) => Some(Parsed(Both(left, right), rest'))
      else Some(Parsed(left, rest))
  }

  function ParsePrimary(ts: seq<Token>): (r: Option<Parsed>)
    ensures r.Some? ==> |r.value.rest| < |ts|
    decreases |ts|, 0
  {
    if ts == [] then None
    else if ts[0].LParen? then ParseClosed(ts[1..])
    else if ts[0].Exists? then
      if |ts| >= 3 && ts[1].LParen? && ts[2].SelectFromTags? then
        match ParseClosed(ts[3..])
        case None => None
        case Some(Parsed(inner, rest)) => Some(Parsed(ExistsTag(inner), rest))
      else None
    else ParseComparison(ts)
  }

  /** A condition up to and including its closing parenthesis. */
  function ParseClosed(ts: seq<Token>): (r: Option<Parsed>)
    ensures r.Some? ==> |r.value.rest| < |ts|
    decreases |ts|, 3
  {
    match ParseOr(ts)
    case None => None
    case Some(Parsed(inner, rest)) =>
      if rest != [] && rest[0].RParen? then Some(Parsed(inner, rest[1..])) else None
  }

  function ParseComparison(ts: seq<Token>): (r: Option<Parsed>)
    ensures r.Some? ==> |r.value.rest| < |ts|
  {
    if |ts| < 3 || OperandOf(ts[0]).None? || OperandOf(ts[2]).None? then None
    else
      var left, right := OperandOf(ts[0]).value, OperandOf(ts[2]).value;
      if ts[1].Equals? then Some(Parsed(Equal(left, right), ts[3..]))
      else if ts[1].ILike? && |ts| >= 5 && ts[3].EscapeWord? && OperandOf(ts[4]).Some? then
        Some(Parsed(Like(left, right, OperandOf(ts[4]).value), ts[5..]))
      else None
  }

  /** The condition a whole WHERE text denotes. */
  function ParseWhere(ts: seq<Token>): Option<Condition> {
    match ParseOr(ts)
    case Some(Parsed(c, rest)) => if rest == [] then Some(c) else None
    case None => None
  }

  // ----- Meaning -----

  datatype Value = Number(n: int) | Chars(s: string) | Null

  datatype Truth = True | False | Unknown

  function TruthOf(b: bool): Truth {
    if b then True else False
  }

  function Conj(a: Truth, b: Truth): Truth {
    if a.False? || b.False? then False else if a.True? && b.True? then True else Unknown
  }

  function Disj(a: Truth, b: Truth): Truth {
    if a.True? || b.True? then True else if a.False? && b.False? then False else Unknown
  }

  datatype Stream = Stream(id: int, userId: int, name: string, description: Option<string>, status: string,
                           visibility: string, createdAt: int)

  /** A row of `stream_tags`. */
  datatype TagRow = TagRow(streamId: int, tagId: int)

  /** What a query sees: its parameters, the fold ILIKE uses, and the tag table. */
  datatype Env = Env(params: seq<Value>, fold: char -> char, tags: set<TagRow>)

  function ColumnValue(c: Column, row: Stream, tag: Option<TagRow>): Value {
    match c
    case UserId => Number(row.userId)
    case Visibility => Chars(row.visibility)
    case Status => Chars(row.status)
    case Name => Chars(row.name)
    case Description => if row.description.Some? then Chars(row.description.value) else Null
    case StreamsId => Number(row.id)
    case TagsStreamId => if tag.Some? then Number(tag.value.streamId) else Null
    case TagsTagId => if tag.Some? then Number(tag.value.tagId) else Null
  }

  /** `$n` is the n-th parameter, counted from one. */
  function OperandValue(o: Operand, env: Env, row: Stream, tag: Option<TagRow>): Value {
    match o
    case OfColumn(c) => ColumnValue(c, row, tag)
    case OfParam(n) => if 1 <= n <= |env.params| then env.params[n - 1] else Null
    case OfText(s) => Chars(s)
  }

  ghost function Eval(c: Condition, env: Env, row: Stream, tag: Option<TagRow>): Truth
    decreases c
  {
    match c
    case Equal(l, r) =>
      var a, b := OperandValue(l, env, row, tag), OperandValue(r, env, row, tag);
      if a.Null? || b.Null? then Unknown else TruthOf(a == b)
    case Like(v, p, e) =>
      var a, b := OperandValue(v, env, row, tag), OperandValue(p, env, row, tag);
      if a.Null? || b.Null? then Unknown
      else TruthOf(a.Chars? && b.Chars? && OperandValue(e, env, row, tag) == Chars("\\") &&
          Like.MatchesFolded(env.fold, a.s, b.s))
    case Both(l, r) => Conj(Eval(l, env, row, tag), Eval(r, env, row, tag))
    case Either(l, r) => Disj(Eval(l, env, row, tag), Eval(r, env, row, tag))
    case ExistsTag(inner) => TruthOf(exists t | t in env.tags :: Eval(inner, env, row, Some(t)) == True)
  }

  /** A WHERE clause keeps a row exactly when its condition is true: neither false nor unknown. */
  ghost predicate Selects(where: seq<Token>, env: Env, row: Stream) {
    var c := ParseWhere(where);
    c.Some? && Eval(c.value, env, row, None) == True
  }

  // ----- Placeholders -----

  predicate OperandBound(o: Operand, n: nat) {
    o.OfParam? ==> 1 <= o.n <= n
  }

  /** Every placeholder of `c` is one of `$1` to `$n`. */
  predicate Bound(c: Condition, n: nat) {
    match c
    case Equal(l, r) => OperandBound(l, n) && OperandBound(r, n)
    case Like(v, p, e) => OperandBound(v, n) && OperandBound(p, n) && OperandBound(e, n)
    case Both(l, r) => Bound(l, n) && Bound(r, n)
    case Either(l, r) => Bound(l, n) && Bound(r, n)
    case ExistsTag(inner) => Bound(inner, n)
  }

  /** Parameters pushed later do not change what an earlier condition means. */
  lemma LaterParamsDoNotMatterHere(c: Condition, env: Env, more: seq<Value>, row: Stream, tag: Option<TagRow>)
    requires Bound(c, |env.params|) && (c.Equal? || c.Like?)
    ensures Eval(c, env.(params := env.params + more), row, tag) == Eval(c, env, row, tag)
  {
  }

  lemma {:induction false} LaterParamsDoNotMatter(c: Condition, env: Env, more: seq<Value>, row: Stream,
                                                  tag: Option<TagRow>)
    requires Bound(c, |env.params|)
    ensures Eval(c, env.(params := env.params + more), row, tag) == Eval(c, env, row, tag)
    decreases c
  {
    var env' := env.(params := env.params + more);
    hide OperandValue, TruthOf;
    match c
    case Equal(_, _) => LaterParamsDoNotMatterHere(c, env, more, row, tag);
    case Like(_, _, _) => LaterParamsDoNotMatterHere(c, env, more, row, tag);
    case Both(l, r) =>
      LaterParamsDoNotMatter(l, env, more, row, tag);
      LaterParamsDoNotMatter(r, env, more, row, tag);
    case Either(l, r) =>
      LaterParamsDoNotMatter(l, env, more, row, tag);
      LaterParamsDoNotMatter(r, env, more, row, tag);
    case ExistsTag(inner) =>
      forall t | t in env.tags
        ensures Eval(inner, env', row, Some(t)) == Eval(inner, env, row, Some(t))
      {
        LaterParamsDoNotMatter(inner, env, more, row, Some(t));
      }
  }
}
