/** JSON values and the canonical printer that keys dead letters. Text is a sequence of UTF-16 code units. */
module Json {

  type Unit = n: nat | n < 0x10000

  type Str = seq<Unit>

  datatype Member = Member(key: Str, value: Value)

  /** `Num` carries the digits JavaScript prints for the number: a finite number has exactly one such text, and
      0 and -0 share theirs. `Absent` is `undefined`, `NonFinite` an infinity or NaN. */
  datatype Value =
    | Null
    | Absent
    | NonFinite
    | Bool(b: bool)
    | Num(digits: Str)
    | Text(s: Str)
    | List(items: seq<Value>)
    | Object(members: seq<Member>)

  // ----- Text quoting, section 7 of RFC 8259 -----

  const QUOTE: Unit := 0x22
  const BACKSLASH: Unit := 0x5C
  const COMMA: Unit := 0x2C
  const COLON: Unit := 0x3A
  const OPEN_LIST: Unit := 0x5B
  const CLOSE_LIST: Unit := 0x5D
  const OPEN_OBJECT: Unit := 0x7B
  const CLOSE_OBJECT: Unit := 0x7D

  predicate IsHigh(u: Unit) {
    0xD800 <= u < 0xDC00
  }

  predicate IsLow(u: Unit) {
    0xDC00 <= u < 0xE000
  }

  /** The letter of a two-character escape, or 0. */
  function ShortEscape(u: Unit): Unit {
    if u == QUOTE then QUOTE
    else if u == BACKSLASH then BACKSLASH
    else if u == 0x08 then 0x62
    else if u == 0x0C then 0x66
    else if u == 0x0A then 0x6E
    else if u == 0x0D then 0x72
    else if u == 0x09 then 0x74
    else 0
  }

  function HexDigit(n: nat): Unit
    requires n < 16
  {
    if n < 10 then 0x30 + n else 0x61 + (n - 10)
  }

  function UnicodeEscape(u: Unit): Str {
    [BACKSLASH, 0x75, HexDigit(u / 4096), HexDigit(u / 256 % 16), HexDigit(u / 16 % 16), HexDigit(u % 16)]
  }

  predicate StartsPair(s: Str) {
    |s| >= 2 && IsHigh(s[0]) && IsLow(s[1])
  }

  /** How the first character of a text is written, surrogate pairs as one character. */
  function Piece(s: Str): Str
    requires s != []
  {
    if StartsPair(s) then s[..2]
    else if ShortEscape(s[0]) != 0 then [BACKSLASH, ShortEscape(s[0])]
    else if s[0] < 0x20 || IsHigh(s[0]) || IsLow(s[0]) then UnicodeEscape(s[0])
    else [s[0]]
  }

  function Rest(s: Str): Str
    requires s != []
  {
    if StartsPair(s) then s[2..] else s[1..]
  }

  function QuoteBody(s: Str): Str
    decreases |s|
  {
    if s == [] then [QUOTE] else Piece(s) + QuoteBody(Rest(s))
  }

  function Quote(s: Str): Str {
    [QUOTE] + QuoteBody(s)
  }

  // ----- Object keys -----

  /** The order of `Array.prototype.sort` on strings: by code unit. */
  predicate Less(a: Str, b: Str)
    decreases |a|
  {
    b != [] && (a == [] || a[0] < b[0] || (a[0] == b[0] && Less(a[1..], b[1..])))
  }

  function Insert(k: Str, keys: seq<Str>): (r: seq<Str>)
    ensures |r| == |keys| + 1
    ensures forall x :: x in r <==> x == k || x in keys
  {
    if keys == [] then [k]
    else if Less(keys[0], k) then
      assert keys == [keys[0]] + keys[1..];
      [keys[0]] + Insert(k, keys[1..])
    else [k] + keys
  }

  function Sort(keys: seq<Str>): (r: seq<Str>)
    ensures |r| == |keys|
    ensures forall x :: x in r <==> x in keys
  {
    if keys == [] then []
    else
      assert keys == [keys[0]] + keys[1..];
      Insert(keys[0], Sort(keys[1..]))
  }

  function KeysOf(ms: seq<Member>): (r: seq<Str>)
    ensures |r| == |ms|
    ensures forall i | 0 <= i < |ms| :: r[i] == ms[i].key
  {
    if ms == [] then [] else [ms[0].key] + KeysOf(ms[1..])
  }

  function IndexOf(ms: seq<Member>, k: Str): (i: nat)
    requires k in KeysOf(ms)
    ensures i < |ms| && ms[i].key == k
  {
    if ms[0].key == k then 0 else 1 + IndexOf(ms[1..], k)
  }

  // ----- The printer -----

  const NULL: Str := [0x6E, 0x75, 0x6C, 0x6C]
  const TRUE: Str := [0x74, 0x72, 0x75, 0x65]
  const FALSE: Str := [0x66, 0x61, 0x6C, 0x73, 0x65]

  function Print(v: Value): Str
    decreases v, 1, 0
  {
    match v
    case Null | Absent | NonFinite => NULL
    case Bool(b) => if b then TRUE else FALSE
    case Num(digits) => digits
    case Text(s) => Quote(s)
    case List(items) => [OPEN_LIST] + PrintItems(items) + [CLOSE_LIST]
    case Object(ms) => [OPEN_OBJECT] + PrintMembers(v, Sort(KeysOf(ms))) + [CLOSE_OBJECT]
  }

  function PrintItems(items: seq<Value>): Str
    decreases items, 0, 0
  {
    if items == [] then []
    else if |items| == 1 then Print(items[0])
    else Print(items[0]) + [COMMA] + PrintItems(items[1..])
  }

  function PrintMembers(v: Value, keys: seq<Str>): Str
    requires v.Object? && forall k | k in keys :: k in KeysOf(v.members)
    decreases v, 0, |keys|
  {
    if keys == [] then []
    else
      var one := Quote(keys[0]) + [COLON] + Print(At(v, keys[0]));
      if |keys| == 1 then one else one + [COMMA] + PrintMembers(v, keys[1..])
  }

  // ----- Equality up to key order -----

  predicate Distinct(keys: seq<Str>) {
    forall i, j | 0 <= i < j < |keys| :: keys[i] != keys[j]
  }

  predicate IsDigit(u: Unit) {
    0x30 <= u <= 0x39
  }

  /** The characters of a number after its first: digits, a point, an exponent and its sign. */
  predicate InNumber(u: Unit) {
    IsDigit(u) || u == 0x2E || u == 0x65 || u == 0x2B || u == 0x2D
  }

  predicate IsNumber(digits: Str) {
    digits != [] && (IsDigit(digits[0]) || digits[0] == 0x2D) && forall u | u in digits :: InNumber(u)
  }

  /** What JavaScript can hold: an object has each key once, a number prints as a number. */
  predicate Valid(v: Value) {
    match v
    case Num(digits) => IsNumber(digits)
    case List(items) => forall i | 0 <= i < |items| :: Valid(items[i])
    case Object(ms) => Distinct(KeysOf(ms)) && forall i | 0 <= i < |ms| :: Valid(ms[i].value)
    case _ => true
  }

  predicate IsNull(v: Value) {
    v.Null? || v.Absent? || v.NonFinite?
  }

  /** A value with no `undefined` and no infinite number anywhere in it. */
  predicate IsJson(v: Value) {
    match v
    case Absent | NonFinite => false
    case List(items) => forall i | 0 <= i < |items| :: IsJson(items[i])
    case Object(ms) => forall i | 0 <= i < |ms| :: IsJson(ms[i].value)
    case _ => true
  }

  /** Equal up to the order of object members, and up to what JSON writes as null. */
  ghost predicate Equivalent(a: Value, b: Value)
    decreases a
  {
    match a
    case Null | Absent | NonFinite => IsNull(b)
    case List(items) =>
      b.List? && |items| == |b.items| && forall i | 0 <= i < |items| :: Equivalent(items[i], b.items[i])
    case Object(ms) =>
      b.Object? && (forall k :: k in KeysOf(ms) <==> k in KeysOf(b.members)) &&
      forall k | k in KeysOf(ms) :: Equivalent(At(a, k), At(b, k))
    case _ => a == b
  }

  function At(v: Value, k: Str): (r: Value)
    requires v.Object? && k in KeysOf(v.members)
    ensures r < v
  {
    v.members[IndexOf(v.members, k)].value
  }

  // ----- A text's quoted form ends where it says it does -----

  lemma UnicodeEscapeInjective(u: Unit, v: Unit)
    requires UnicodeEscape(u) == UnicodeEscape(v)
    ensures u == v
  {
    var p, q := UnicodeEscape(u), UnicodeEscape(v);
    assert p[2] == q[2] && p[3] == q[3] && p[4] == q[4] && p[5] == q[5];
    assert u / 4096 == v / 4096 && u / 256 % 16 == v / 256 % 16 && u / 16 % 16 == v / 16 % 16 && u % 16 == v % 16;
    HexDigits(u);
    HexDigits(v);
  }

  lemma HexDigits(u: Unit)
    ensures u == u / 4096 * 4096 + u / 256 % 16 * 256 + u / 16 % 16 * 16 + u % 16
  {
    assert u == u / 16 * 16 + u % 16;
    assert u / 16 == u / 256 * 16 + u / 16 % 16;
    assert u / 256 == u / 4096 * 16 + u / 256 % 16;
  }

  /** The first written character tells which character was written. */
  lemma PieceTells(s: Str, t: Str, x: Str, y: Str)
    requires s != [] && t != []
    requires Piece(s) + x == Piece(t) + y
    ensures Piece(s) == Piece(t) && x == y && s[0] == t[0] && (StartsPair(s) <==> StartsPair(t)) &&
            (StartsPair(s) ==> s[1] == t[1])
  {
    PieceKind(s);
    PieceKind(t);
    hide Piece, ShortEscape, UnicodeEscape;
    var a, b := Piece(s) + x, Piece(t) + y;
    assert a[0] == Piece(s)[0] && b[0] == Piece(t)[0];
    assert |Piece(s)| > 1 ==> a[1] == Piece(s)[1];
    assert |Piece(t)| > 1 ==> b[1] == Piece(t)[1];
    assert |Piece(s)| == |Piece(t)|;
    assert x == a[|Piece(s)|..] && y == b[|Piece(t)|..];
    assert Piece(s) == a[..|Piece(s)|] && Piece(t) == b[..|Piece(t)|];
    if |Piece(s)| == 6 {
      UnicodeEscapeInjective(s[0], t[0]);
    } else if |Piece(s)| == 2 && Piece(s)[0] == BACKSLASH {
      ShortEscapeInjective(s[0], t[0]);
    }
  }

  lemma ShortEscapeInjective(u: Unit, v: Unit)
    requires ShortEscape(u) == ShortEscape(v) != 0
    ensures u == v
  {
  }

  /** The four ways of writing a character, told by its first two units. */
  lemma PieceKind(s: Str)
    requires s != []
    ensures var p := Piece(s);
            if StartsPair(s) then p == [s[0], s[1]] && IsHigh(p[0])
            else if ShortEscape(s[0]) != 0 then p == [BACKSLASH, ShortEscape(s[0])] && p[1] != 0x75
            else if s[0] < 0x20 || IsHigh(s[0]) || IsLow(s[0])
            then p == UnicodeEscape(s[0]) && |p| == 6 && p[0] == BACKSLASH && p[1] == 0x75
            else p == [s[0]] && p[0] != BACKSLASH && !IsHigh(p[0])
  {
  }

  lemma PieceIsNoQuote(s: Str)
    requires s != []
    ensures Piece(s) != [] && Piece(s)[0] != QUOTE
  {
  }

  lemma EmptyQuoteTells(s: Str, t: Str, x: Str, y: Str)
    requires QuoteBody(s) + x == QuoteBody(t) + y && s == []
    ensures t == [] && x == y
  {
    var a, b := QuoteBody(s) + x, QuoteBody(t) + y;
    assert a[0] == QUOTE && b[0] == QuoteBody(t)[0];
    if t != [] {
      PieceIsNoQuote(t);
    }
    assert x == a[1..];
  }

  lemma OneMorePiece(s: Str, x: Str)
    requires s != []
    ensures QuoteBody(s) + x == Piece(s) + (QuoteBody(Rest(s)) + x)
  {
    hide Piece, Rest;
  }

  lemma {:induction false} QuoteBodyTells(s: Str, t: Str, x: Str, y: Str)
    requires QuoteBody(s) + x == QuoteBody(t) + y
    ensures s == t && x == y
    decreases |s| + |t|
  {
    if s == [] {
      EmptyQuoteTells(s, t, x, y);
    } else if t == [] {
      EmptyQuoteTells(t, s, y, x);
    } else {
      assert |Rest(s)| < |s| && |Rest(t)| < |t|;
      OneMorePiece(s, x);
      OneMorePiece(t, y);
      SplitText(s);
      SplitText(t);
      hide QuoteBody, Piece, Rest;
      PieceTells(s, t, QuoteBody(Rest(s)) + x, QuoteBody(Rest(t)) + y);
      QuoteBodyTells(Rest(s), Rest(t), x, y);
    }
  }

  lemma SplitText(s: Str)
    requires s != []
    ensures s == (if StartsPair(s) then [s[0], s[1]] else [s[0]]) + Rest(s)
  {
  }

  /** Quoting is injective, and a quoted text cannot be confused with a longer one. */
  lemma QuoteTells(s: Str, t: Str, x: Str, y: Str)
    requires Quote(s) + x == Quote(t) + y
    ensures s == t && x == y
  {
    hide QuoteBody;
    assert (Quote(s) + x)[1..] == QuoteBody(s) + x;
    assert (Quote(t) + y)[1..] == QuoteBody(t) + y;
    QuoteBodyTells(s, t, x, y);
  }

  // ----- Sorted keys are a normal form -----

  lemma {:induction false} LessIsTransitive(a: Str, b: Str, c: Str)
    requires Less(a, b) && Less(b, c)
    ensures Less(a, c)
    decreases |a|
  {
    if a != [] && a[0] == b[0] && b[0] == c[0] {
      LessIsTransitive(a[1..], b[1..], c[1..]);
    }
  }

  lemma {:induction false} LessIsTotal(a: Str, b: Str)
    ensures Less(a, b) || Less(b, a) || a == b
    decreases |a|
  {
    if a != [] && b != [] && a[0] == b[0] {
      LessIsTotal(a[1..], b[1..]);
      assert a == [a[0]] + a[1..] && b == [b[0]] + b[1..];
    }
  }

  lemma {:induction false} LessIsIrreflexive(a: Str)
    ensures !Less(a, a)
    decreases |a|
  {
    if a != [] { LessIsIrreflexive(a[1..]); }
  }

  predicate Ascending(keys: seq<Str>) {
    forall i, j | 0 <= i < j < |keys| :: Less(keys[i], keys[j])
  }

  lemma {:induction false} InsertAscends(k: Str, keys: seq<Str>)
    requires Ascending(keys) && k !in keys
    ensures Ascending(Insert(k, keys))
  {
    if keys == [] {
    } else if Less(keys[0], k) {
      InsertAscends(k, keys[1..]);
      var r := Insert(k, keys[1..]);
      forall j | 0 <= j < |r| ensures Less(keys[0], r[j]) {
        assert r[j] in r;
        if r[j] != k {
          assert r[j] in keys[1..];
        }
      }
    } else {
      LessIsTotal(keys[0], k);
      assert keys[0] in keys;
      forall j | 0 <= j < |keys| ensures Less(k, keys[j]) {
        if j > 0 { LessIsTransitive(k, keys[0], keys[j]); }
      }
    }
  }

  lemma {:induction false} SortAscends(keys: seq<Str>)
    requires Distinct(keys)
    ensures Ascending(Sort(keys))
  {
    if keys != [] {
      SortAscends(keys[1..]);
      InsertAscends(keys[0], Sort(keys[1..]));
    }
  }

  lemma HeadIsLeast(keys: seq<Str>, k: Str)
    requires Ascending(keys) && k in keys
    ensures k == keys[0] || Less(keys[0], k)
  {
  }

  lemma {:induction false} AscendingIsUnique(a: seq<Str>, b: seq<Str>)
    requires Ascending(a) && Ascending(b)
    requires forall k :: k in a <==> k in b
    ensures a == b
  {
    assert a != [] ==> a[0] in a;
    assert b != [] ==> b[0] in b;
    if a != [] {
      HeadIsLeast(a, b[0]);
      HeadIsLeast(b, a[0]);
      if a[0] != b[0] {
        LessIsTransitive(a[0], b[0], a[0]);
        LessIsIrreflexive(a[0]);
      }
      TailKeys(a);
      TailKeys(b);
      forall k ensures k in a[1..] <==> k in b[1..] {
        assert k in a[1..] <==> k in a && k != a[0];
        assert k in b[1..] <==> k in b && k != b[0];
      }
      AscendingIsUnique(a[1..], b[1..]);
      assert a == [a[0]] + a[1..] && b == [b[0]] + b[1..];
    }
  }

  lemma TailKeys(a: seq<Str>)
    requires a != [] && Ascending(a)
    ensures forall k :: k in a[1..] <==> k in a && k != a[0]
  {
    LessIsIrreflexive(a[0]);
    assert a == [a[0]] + a[1..];
  }

  /** The order the members come in does not show once the keys are sorted. */
  lemma SortForgetsOrder(a: seq<Str>, b: seq<Str>)
    requires Distinct(a) && Distinct(b) && forall k :: k in a <==> k in b
    ensures Sort(a) == Sort(b)
  {
    SortAscends(a);
    SortAscends(b);
    AscendingIsUnique(Sort(a), Sort(b));
  }

  // ----- Equivalent values print the same -----

  lemma {:induction false} EquivalentPrintsSame(a: Value, b: Value)
    requires Valid(a) && Valid(b) && Equivalent(a, b)
    ensures Print(a) == Print(b)
    decreases a, 1, 0
  {
    match a
    case List(items) => EquivalentItems(items, b.items);
    case Object(ms) =>
      SortForgetsOrder(KeysOf(ms), KeysOf(b.members));
      EquivalentMembers(a, b, Sort(KeysOf(ms)));
    case _ =>
  }

  lemma {:induction false} EquivalentItems(a: seq<Value>, b: seq<Value>)
    requires |a| == |b| && forall i | 0 <= i < |a| :: Valid(a[i]) && Valid(b[i]) && Equivalent(a[i], b[i])
    ensures PrintItems(a) == PrintItems(b)
    decreases a, 0, 0
  {
    if a != [] {
      EquivalentPrintsSame(a[0], b[0]);
      EquivalentItems(a[1..], b[1..]);
    }
  }

  lemma {:induction false} EquivalentMembers(a: Value, b: Value, keys: seq<Str>)
    requires a.Object? && b.Object? && Valid(a) && Valid(b) && Equivalent(a, b)
    requires forall k | k in keys :: k in KeysOf(a.members)
    ensures PrintMembers(a, keys) == PrintMembers(b, keys)
    decreases a, 0, |keys|
  {
    if keys != [] {
      assert keys[0] in keys;
      EquivalentPrintsSame(At(a, keys[0]), At(b, keys[0]));
      EquivalentMembers(a, b, keys[1..]);
    }
  }

  // ----- Values that print the same are equivalent -----

  /** What may follow a value inside a list or an object, or nothing. */
  predicate Delimited(x: Str) {
    x == [] || x[0] == COMMA || x[0] == CLOSE_LIST || x[0] == CLOSE_OBJECT
  }

  /** How far a number reaches into a text. */
  function NumberLength(s: Str): nat {
    if s != [] && InNumber(s[0]) then 1 + NumberLength(s[1..]) else 0
  }

  lemma {:induction false} NumberReaches(a: Str, x: Str)
    requires (forall u | u in a :: InNumber(u)) && Delimited(x)
    ensures NumberLength(a + x) == |a|
  {
    if a == [] {
      assert a + x == x;
    } else {
      assert a[0] in a;
      assert (a + x)[1..] == a[1..] + x;
      NumberReaches(a[1..], x);
    }
  }

  lemma NumberTells(a: Str, b: Str, x: Str, y: Str)
    requires (forall u | u in a :: InNumber(u)) && (forall u | u in b :: InNumber(u))
    requires Delimited(x) && Delimited(y) && a + x == b + y
    ensures a == b && x == y
  {
    NumberReaches(a, x);
    NumberReaches(b, y);
    assert a == (a + x)[..|a|] && b == (b + y)[..|b|];
    assert x == (a + x)[|a|..] && y == (b + y)[|b|..];
  }

  /** The first character tells the kind of a value; it is none of the delimiters. */
  function Kind(v: Value): nat {
    match v
    case Null | Absent | NonFinite => 0
    case Bool(b) => if b then 1 else 2
    case Num(_) => 3
    case Text(_) => 4
    case List(_) => 5
    case Object(_) => 6
  }

  function KindOf(u: Unit): nat {
    if u == 0x6E then 0
    else if u == 0x74 then 1
    else if u == 0x66 then 2
    else if IsDigit(u) || u == 0x2D then 3
    else if u == QUOTE then 4
    else if u == OPEN_LIST then 5
    else if u == OPEN_OBJECT then 6
    else 7
  }

  lemma FirstTells(v: Value)
    requires Valid(v)
    ensures Print(v) != [] && KindOf(Print(v)[0]) == Kind(v)
  {
  }

  lemma SameFirst(a: Value, b: Value, x: Str, y: Str)
    requires Valid(a) && Valid(b) && Print(a) + x == Print(b) + y
    ensures Kind(a) == Kind(b)
  {
    FirstTells(a);
    FirstTells(b);
    assert (Print(a) + x)[0] == Print(a)[0] && (Print(b) + y)[0] == Print(b)[0];
  }

  /** A printed value can be told from any other up to equivalence, wherever it stands. */
  lemma {:induction false} PrintTells(a: Value, b: Value, x: Str, y: Str)
    requires Valid(a) && Valid(b) && Delimited(x) && Delimited(y) && Print(a) + x == Print(b) + y
    ensures Equivalent(a, b) && x == y
    decreases a, 1, 0
  {
    SameFirst(a, b, x, y);
    match a
    case Num(digits) => NumberTells(digits, b.digits, x, y);
    case Text(s) => QuoteTells(s, b.s, x, y);
    case List(items) => ListTells(items, b.items, x, y);
    case Object(_) => ObjectTells(a, b, x, y);
    case _ =>
      assert |Print(a)| == |Print(b)|;
      assert x == (Print(a) + x)[|Print(a)|..] && y == (Print(b) + y)[|Print(b)|..];
  }

  lemma ListTells(a: seq<Value>, b: seq<Value>, x: Str, y: Str)
    requires (forall i | 0 <= i < |a| :: Valid(a[i])) && forall i | 0 <= i < |b| :: Valid(b[i])
    requires Print(List(a)) + x == Print(List(b)) + y
    ensures |a| == |b| && x == y && forall i | 0 <= i < |a| :: Equivalent(a[i], b[i])
    decreases a, 1, 0
  {
    hide PrintItems, Valid, Equivalent;
    ListBody(a, x);
    ListBody(b, y);
    hide Print;
    ItemsTell(a, b, x, y);
  }

  /** What stands after a list's opening bracket. */
  lemma ListBody(items: seq<Value>, x: Str)
    ensures (Print(List(items)) + x)[1..] == PrintItems(items) + ([CLOSE_LIST] + x)
  {
    hide PrintItems;
    assert Print(List(items)) == [OPEN_LIST] + PrintItems(items) + [CLOSE_LIST];
  }

  /** What stands after the first item. */
  function AfterItem(items: seq<Value>, x: Str): Str
    requires items != []
  {
    if |items| == 1 then [CLOSE_LIST] + x else [COMMA] + (PrintItems(items[1..]) + ([CLOSE_LIST] + x))
  }

  lemma FirstItem(items: seq<Value>, x: Str)
    requires items != []
    ensures var r := AfterItem(items, x);
            && PrintItems(items) + ([CLOSE_LIST] + x) == Print(items[0]) + r
            && Delimited(r) && r != [] && (r[0] == CLOSE_LIST <==> |items| == 1)
            && r[1..] == if |items| == 1 then x else PrintItems(items[1..]) + ([CLOSE_LIST] + x)
  {
    if |items| == 1 {
      assert PrintItems(items) == Print(items[0]) && AfterItem(items, x) == [CLOSE_LIST] + x;
    } else {
      var rest := PrintItems(items[1..]);
      assert PrintItems(items) == Print(items[0]) + [COMMA] + rest;
      assert AfterItem(items, x) == [COMMA] + (rest + ([CLOSE_LIST] + x));
      Associate(Print(items[0]), rest, [CLOSE_LIST] + x);
    }
    hide Print, PrintItems, AfterItem;
  }

  lemma Associate(p: Str, rest: Str, x: Str)
    ensures p + [COMMA] + rest + x == p + ([COMMA] + (rest + x))
    ensures ([COMMA] + (rest + x))[1..] == rest + x
  {
  }

  /** Only an empty list closes at once. */
  lemma ItemsStart(items: seq<Value>, x: Str)
    requires forall i | 0 <= i < |items| :: Valid(items[i])
    ensures var s := PrintItems(items) + ([CLOSE_LIST] + x);
            (s[0] == CLOSE_LIST <==> items == []) && (items == [] ==> s == [CLOSE_LIST] + x)
  {
    hide *;
    if items == [] {
      EmptyItems(items, x);
    } else {
      FirstIsNoDelimiter(items[0]);
      FirstItem(items, x);
    }
  }

  lemma EmptyItems(items: seq<Value>, x: Str)
    requires items == []
    ensures PrintItems(items) + ([CLOSE_LIST] + x) == [CLOSE_LIST] + x && ([CLOSE_LIST] + x)[0] == CLOSE_LIST
  {
  }

  lemma FirstIsNoDelimiter(v: Value)
    requires Valid(v)
    ensures Print(v) != [] && Print(v)[0] != CLOSE_LIST
  {
    FirstTells(v);
    hide Print, Valid;
  }

  lemma {:induction false} ItemsTell(a: seq<Value>, b: seq<Value>, x: Str, y: Str)
    requires (forall i | 0 <= i < |a| :: Valid(a[i])) && forall i | 0 <= i < |b| :: Valid(b[i])
    requires PrintItems(a) + ([CLOSE_LIST] + x) == PrintItems(b) + ([CLOSE_LIST] + y)
    ensures |a| == |b| && x == y && forall i | 0 <= i < |a| :: Equivalent(a[i], b[i])
    decreases a, 0, 0
  {
    if a == [] || b == [] {
      ItemsStart(a, x);
      ItemsStart(b, y);
      assert x == ([CLOSE_LIST] + x)[1..] && y == ([CLOSE_LIST] + y)[1..];
    } else {
      hide PrintItems, Print, Valid, Equivalent, AfterItem;
      var p, q := AfterItem(a, x), AfterItem(b, y);
      FirstItem(a, x);
      FirstItem(b, y);
      PrintTells(a[0], b[0], p, q);
      if |a| > 1 {
        ItemsTell(a[1..], b[1..], x, y);
        forall i | 0 <= i < |a| ensures Equivalent(a[i], b[i]) {
          if i > 0 { assert a[i] == a[1..][i - 1] && b[i] == b[1..][i - 1]; }
        }
      }
    }
  }

  /** What stands after an object's opening brace. */
  lemma ObjectBody(v: Value, x: Str)
    requires v.Object?
    ensures (Print(v) + x)[1..] == PrintMembers(v, Sort(KeysOf(v.members))) + ([CLOSE_OBJECT] + x)
  {
    hide PrintMembers, Sort, KeysOf, Quote;
    var m := PrintMembers(v, Sort(KeysOf(v.members)));
    assert Print(v) == [OPEN_OBJECT] + m + [CLOSE_OBJECT];
  }

  lemma ObjectTells(a: Value, b: Value, x: Str, y: Str)
    requires a.Object? && b.Object? && Valid(a) && Valid(b)
    requires Print(a) + x == Print(b) + y
    ensures Equivalent(a, b) && x == y
    decreases a, 0, |a.members| + 2
  {
    hide Print, PrintMembers;
    var p, q := Sort(KeysOf(a.members)), Sort(KeysOf(b.members));
    ObjectBody(a, x);
    ObjectBody(b, y);
    MembersTell(a, b, p, q, x, y);
    assert forall k :: k in KeysOf(a.members) <==> k in p;
    assert forall k :: k in KeysOf(b.members) <==> k in q;
  }

  /** What stands after the first member's colon. */
  function AfterMember(v: Value, keys: seq<Str>, x: Str): Str
    requires v.Object? && keys != [] && forall k | k in keys :: k in KeysOf(v.members)
  {
    if |keys| == 1 then [CLOSE_OBJECT] + x else [COMMA] + (PrintMembers(v, keys[1..]) + ([CLOSE_OBJECT] + x))
  }

  lemma FirstMember(v: Value, keys: seq<Str>, x: Str)
    requires v.Object? && keys != [] && forall k | k in keys :: k in KeysOf(v.members)
    ensures var r := AfterMember(v, keys, x);
            && PrintMembers(v, keys) + ([CLOSE_OBJECT] + x) ==
               Quote(keys[0]) + ([COLON] + (Print(At(v, keys[0])) + r))
            && Delimited(r) && r != [] && (r[0] == CLOSE_OBJECT <==> |keys| == 1)
            && r[1..] == if |keys| == 1 then x else PrintMembers(v, keys[1..]) + ([CLOSE_OBJECT] + x)
  {
    hide Print, Quote, KeysOf, At;
  }

  /** Only an empty object closes at once. */
  lemma MembersStart(v: Value, keys: seq<Str>, x: Str)
    requires v.Object? && forall k | k in keys :: k in KeysOf(v.members)
    ensures var s := PrintMembers(v, keys) + ([CLOSE_OBJECT] + x);
            (s[0] == CLOSE_OBJECT <==> keys == []) && (keys == [] ==> s == [CLOSE_OBJECT] + x)
  {
    if keys == [] {
      assert PrintMembers(v, []) == [];
    } else {
      FirstMember(v, keys, x);
      assert Quote(keys[0])[0] == QUOTE;
    }
    hide PrintMembers, Print, Quote, KeysOf, At, AfterMember;
  }

  lemma {:induction false} MembersTell(a: Value, b: Value, p: seq<Str>, q: seq<Str>, x: Str, y: Str)
    requires a.Object? && b.Object? && Valid(a) && Valid(b)
    requires (forall k | k in p :: k in KeysOf(a.members)) && forall k | k in q :: k in KeysOf(b.members)
    requires PrintMembers(a, p) + ([CLOSE_OBJECT] + x) == PrintMembers(b, q) + ([CLOSE_OBJECT] + y)
    ensures p == q && x == y && forall k | k in p :: Equivalent(At(a, k), At(b, k))
    decreases a, 0, |p| + 1
  {
    hide PrintMembers, Print, Quote, KeysOf, At, AfterMember, Valid, Equivalent, Delimited;
    if p == [] || q == [] {
      MembersStart(a, p, x);
      MembersStart(b, q, y);
      assert x == ([CLOSE_OBJECT] + x)[1..] && y == ([CLOSE_OBJECT] + y)[1..];
    } else {
      var c, d := AfterMember(a, p, x), AfterMember(b, q, y);
      FirstMember(a, p, x);
      FirstMember(b, q, y);
      MemberTells(a, b, p[0], q[0], c, d);
      assert p == [p[0]] + p[1..] && q == [q[0]] + q[1..];
      if |p| > 1 {
        MembersTell(a, b, p[1..], q[1..], x, y);
      }
    }
  }

  /** The first member's key and value, and what follows, can all be told. */
  lemma MemberTells(a: Value, b: Value, j: Str, k: Str, c: Str, d: Str)
    requires a.Object? && b.Object? && Valid(a) && Valid(b) && j in KeysOf(a.members) && k in KeysOf(b.members)
    requires Delimited(c) && Delimited(d)
    requires Quote(j) + ([COLON] + (Print(At(a, j)) + c)) == Quote(k) + ([COLON] + (Print(At(b, k)) + d))
    ensures j == k && c == d && Equivalent(At(a, j), At(b, k))
    decreases a, 0, 0
  {
    ValidAt(a, j);
    ValidAt(b, k);
    hide Quote, Print, KeysOf, Valid, Equivalent, Delimited;
    var e, f := Print(At(a, j)) + c, Print(At(b, k)) + d;
    QuoteTells(j, k, [COLON] + e, [COLON] + f);
    assert e == ([COLON] + e)[1..] && f == ([COLON] + f)[1..];
    PrintTells(At(a, j), At(b, k), c, d);
  }

  lemma ValidAt(v: Value, k: Str)
    requires v.Object? && Valid(v) && k in KeysOf(v.members)
    ensures Valid(At(v, k))
  {
  }

  /** Equal but for the order in which objects list their members. */
  ghost predicate EqualUpToOrder(a: Value, b: Value)
    decreases a
  {
    match a
    case List(items) =>
      b.List? && |items| == |b.items| && forall i | 0 <= i < |items| :: EqualUpToOrder(items[i], b.items[i])
    case Object(ms) =>
      b.Object? && (forall k :: k in KeysOf(ms) <==> k in KeysOf(b.members)) &&
      forall k | k in KeysOf(ms) :: EqualUpToOrder(At(a, k), At(b, k))
    case _ => a == b
  }

  lemma JsonAt(v: Value, k: Str)
    requires v.Object? && IsJson(v) && k in KeysOf(v.members)
    ensures IsJson(At(v, k))
  {
  }

  lemma {:induction false} JsonEquivalence(a: Value, b: Value)
    requires IsJson(a) && IsJson(b)
    ensures Equivalent(a, b) <==> EqualUpToOrder(a, b)
    decreases a
  {
    match a
    case List(items) =>
      if b.List? && |items| == |b.items| {
        forall i | 0 <= i < |items| ensures Equivalent(items[i], b.items[i]) <==> EqualUpToOrder(items[i], b.items[i]) {
          JsonEquivalence(items[i], b.items[i]);
        }
      }
    case Object(ms) =>
      if b.Object? && forall k :: k in KeysOf(ms) <==> k in KeysOf(b.members) {
        forall k | k in KeysOf(ms) ensures Equivalent(At(a, k), At(b, k)) <==> EqualUpToOrder(At(a, k), At(b, k)) {
          JsonAt(a, k);
          JsonAt(b, k);
          JsonEquivalence(At(a, k), At(b, k));
        }
      }
    case _ =>
  }

  /** Two JSON values, with no `undefined` and no infinite number in them, print the same text exactly when they are
      equal up to key order. */
  lemma CanonicalForJson(a: Value, b: Value)
    requires Valid(a) && Valid(b) && IsJson(a) && IsJson(b)
    ensures Print(a) == Print(b) <==> EqualUpToOrder(a, b)
  {
    hide Print, Valid, Equivalent, EqualUpToOrder, IsJson;
    Canonical(a, b);
    JsonEquivalence(a, b);
  }

  /** The printer is canonical: two values print the same text exactly when they are equal up to key order and up
      to what JSON writes as null. */
  lemma Canonical(a: Value, b: Value)
    requires Valid(a) && Valid(b)
    ensures Print(a) == Print(b) <==> Equivalent(a, b)
  {
    if Print(a) == Print(b) {
      PrintTells(a, b, [], []);
    }
    if Equivalent(a, b) {
      EquivalentPrintsSame(a, b);
    }
  }
}
