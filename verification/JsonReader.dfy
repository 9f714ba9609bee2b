/** A reader for JSON texts, written from RFC 8259 alone: what the canonical printer writes is JSON, and reading it
    gives back the value. White space, which the printer never writes, is not read. */
module JsonReader {
  import opened Options
  import opened Json

  // ----- Texts, section 7 of RFC 8259 -----

  function HexValue(u: Unit): Option<nat> {
    if 0x30 <= u <= 0x39 then Some(u - 0x30)
    else if 0x41 <= u <= 0x46 then Some(u - 0x41 + 10)
    else if 0x61 <= u <= 0x66 then Some(u - 0x61 + 10)
    else None
  }

  /** The code unit written by four hexadecimal digits. */
  function FourHex(s: Str): (r: Option<Unit>)
    requires |s| >= 4
  {
    var a, b, c, d := HexValue(s[0]), HexValue(s[1]), HexValue(s[2]), HexValue(s[3]);
    if a.Some? && b.Some? && c.Some? && d.Some? && a.value < 16 && b.value < 16 && c.value < 16 && d.value < 16
    then Some(a.value * 4096 + b.value * 256 + c.value * 16 + d.value) else None
  }

  /** The code unit a two-character escape stands for. */
  function Unescaped(letter: Unit): Option<Unit> {
    match letter
    case 0x22 => Some(0x22)
    case 0x5C => Some(0x5C)
    case 0x2F => Some(0x2F)
    case 0x62 => Some(0x08)
    case 0x66 => Some(0x0C)
    case 0x6E => Some(0x0A)
    case 0x72 => Some(0x0D)
    case 0x74 => Some(0x09)
    case _ => None
  }

  /** The first character of a text's body, and what is behind it. */
  function ReadUnit(s: Str): (r: Option<(Unit, Str)>)
    ensures r.Some? ==> |r.value.1| < |s|
  {
    if s == [] || s[0] < 0x20 || s[0] == 0x22 then None
    else if s[0] != 0x5C then Some((s[0], s[1..]))
    else if |s| >= 6 && s[1] == 0x75 then
      var u := FourHex(s[2..]);
      if u.Some? then Some((u.value, s[6..])) else None
    else if |s| >= 2 && Unescaped(s[1]).Some? then Some((Unescaped(s[1]).value, s[2..]))
    else None
  }

  /** A text up to its closing quotation mark, and what is behind that. */
  function ReadText(s: Str): (r: Option<(Str, Str)>)
    ensures r.Some? ==> |r.value.1| < |s|
    decreases |s|
  {
    if s == [] then None
    else if s[0] == 0x22 then Some(([], s[1..]))
    else
      match ReadUnit(s)
      case None => None
      case Some((u, rest)) =>
        match ReadText(rest)
        case None => None
        case Some((t, rest')) => Some(([u] + t, rest'))
  }

  lemma ReadsPlain(u: Unit, x: Str)
    requires u >= 0x20 && u != 0x22 && u != 0x5C
    ensures ReadUnit([u] + x) == Some((u, x))
  {
    assert ([u] + x)[1..] == x;
  }

  lemma ReadsShort(u: Unit, x: Str)
    requires ShortEscape(u) != 0
    ensures ReadUnit([BACKSLASH, ShortEscape(u)] + x) == Some((u, x))
  {
    var s := [BACKSLASH, ShortEscape(u)] + x;
    assert s[2..] == x && s[1] != 0x75;
  }

  lemma ReadsHexDigit(n: nat)
    requires n < 16
    ensures HexValue(HexDigit(n)) == Some(n)
  {
  }

  lemma ReadsUnicode(u: Unit, x: Str)
    ensures ReadUnit(UnicodeEscape(u) + x) == Some((u, x))
  {
    var s := UnicodeEscape(u) + x;
    assert s[2..][..4] == UnicodeEscape(u)[2..];
    assert s[6..] == x;
    HexDigits(u);
    ReadsHexDigit(u / 4096);
    ReadsHexDigit(u / 256 % 16);
    ReadsHexDigit(u / 16 % 16);
    ReadsHexDigit(u % 16);
    hide HexDigit, HexValue;
    assert FourHex(s[2..]) == Some(u);
  }

  lemma ReadsPiece(s: Str, x: Str)
    requires s != [] && !StartsPair(s)
    ensures ReadUnit(Piece(s) + x) == Some((s[0], x))
  {
    if ShortEscape(s[0]) != 0 {
      ReadsShort(s[0], x);
    } else if s[0] < 0x20 || IsHigh(s[0]) || IsLow(s[0]) {
      ReadsUnicode(s[0], x);
    } else {
      ReadsPlain(s[0], x);
    }
  }

  lemma ReadTextOn(s: Str, u: Unit, rest: Str, t: Str, x: Str)
    requires ReadUnit(s) == Some((u, rest)) && ReadText(rest) == Some((t, x))
    ensures ReadText(s) == Some(([u] + t, x))
  {
    hide FourHex, Unescaped;
  }

  /** Every text, whatever stands in it and behind it, is read back from how it is quoted. */
  lemma {:induction false} ReadsText(s: Str, x: Str)
    ensures ReadText(QuoteBody(s) + x) == Some((s, x))
    decreases |s|
  {
    if s == [] {
      assert ([QUOTE] + x)[1..] == x;
    } else {
      OneMorePiece(s, x);
      ReadsText(Rest(s), x);
      var tail := QuoteBody(Rest(s)) + x;
      if StartsPair(s) {
        ReadsPlain(s[1], tail);
        ReadTextOn([s[1]] + tail, s[1], tail, Rest(s), x);
        ReadsPlain(s[0], [s[1]] + tail);
        assert Piece(s) + tail == [s[0]] + ([s[1]] + tail);
        ReadTextOn([s[0]] + ([s[1]] + tail), s[0], [s[1]] + tail, [s[1]] + Rest(s), x);
        assert [s[0]] + ([s[1]] + Rest(s)) == s;
      } else {
        ReadsPiece(s, tail);
        ReadTextOn(Piece(s) + tail, s[0], tail, Rest(s), x);
        assert [s[0]] + Rest(s) == s;
      }
    }
  }

  // ----- Values -----

  predicate Begins(s: Str, word: Str) {
    |word| <= |s| && s[..|word|] == word
  }

  function ReadValue(s: Str): (r: Option<(Value, Str)>)
    ensures r.Some? ==> |r.value.1| < |s|
    decreases |s|, 1
  {
    if s == [] then None
    else if Begins(s, [0x6E, 0x75, 0x6C, 0x6C]) then Some((Null, s[4..]))
    else if Begins(s, [0x74, 0x72, 0x75, 0x65]) then Some((Bool(true), s[4..]))
    else if Begins(s, [0x66, 0x61, 0x6C, 0x73, 0x65]) then Some((Bool(false), s[5..]))
    else if s[0] == 0x22 then
      match ReadText(s[1..])
      case None => None
      case Some((t, rest)) => Some((Text(t), rest))
    else if Begins(s, [0x5B, 0x5D]) then Some((List([]), s[2..]))
    else if s[0] == 0x5B then
      match ReadItems(s[1..])
      case None => None
      case Some((items, rest)) => Some((List(items), rest))
    else if Begins(s, [0x7B, 0x7D]) then Some((Object([]), s[2..]))
    else if s[0] == 0x7B then
      match ReadMembers(s[1..])
      case None => None
      case Some((ms, rest)) => Some((Object(ms), rest))
    else if NumberLength(s) > 0 && NumberLength(s) <= |s| then
      Some((Num(s[..NumberLength(s)]), s[NumberLength(s)..]))
    else None
  }

  /** The items of a list that is not empty, up to its closing bracket. */
  function ReadItems(s: Str): (r: Option<(seq<Value>, Str)>)
    ensures r.Some? ==> |r.value.1| < |s|
    decreases |s|, 2
  {
    match ReadValue(s)
    case None => None
    case Some((v, rest)) =>
      if rest == [] then None
      else if rest[0] == 0x5D then Some(([v], rest[1..]))
      else if rest[0] != 0x2C then None
      else
        match ReadItems(rest[1..])
        case None => None
        case Some((vs, rest')) => Some(([v] + vs, rest'))
  }

  /** The members of an object that is not empty, up to its closing brace. */
  function ReadMembers(s: Str): (r: Option<(seq<Member>, Str)>)
    ensures r.Some? ==> |r.value.1| < |s|
    decreases |s|, 2
  {
    if s == [] || s[0] != 0x22 then None
    else
      match ReadText(s[1..])
      case None => None
      case Some((k, colon)) =>
        if colon == [] || colon[0] != 0x3A then None
        else
          match ReadValue(colon[1..])
          case None => None
          case Some((v, rest)) =>
            if rest == [] then None
            else if rest[0] == 0x7D then Some(([Member(k, v)], rest[1..]))
            else if rest[0] != 0x2C then None
            else
              match ReadMembers(rest[1..])
              case None => None
              case Some((ms, rest')) => Some(([Member(k, v)] + ms, rest'))
  }

  // ----- What is read back -----

  /** The value with the members of its objects in the order of their keys, and null for what JSON cannot write. */
  function Normal(v: Value): Value
    decreases v, 1, 0
  {
    match v
    case Absent | NonFinite => Null
    case List(items) => List(NormalItems(items))
    case Object(ms) => Object(NormalMembers(v, Sort(KeysOf(ms))))
    case _ => v
  }

  function NormalItems(items: seq<Value>): (r: seq<Value>)
    ensures |r| == |items| && forall i | 0 <= i < |items| :: r[i] == Normal(items[i])
    decreases items, 0, 0
  {
    if items == [] then [] else [Normal(items[0])] + NormalItems(items[1..])
  }

  function NormalMembers(v: Value, keys: seq<Str>): (r: seq<Member>)
    requires v.Object? && forall k | k in keys :: k in KeysOf(v.members)
    ensures |r| == |keys| && forall i | 0 <= i < |keys| :: r[i] == Member(keys[i], Normal(At(v, keys[i])))
    decreases v, 0, |keys|
  {
    if keys == [] then [] else [Member(keys[0], Normal(At(v, keys[0])))] + NormalMembers(v, keys[1..])
  }

  // ----- The printed forms, one by one -----

  lemma BeginsWith(s: Str, word: Str)
    requires word != [] && Begins(s, word)
    ensures s != [] && s[0] == word[0] && (|word| > 1 ==> |s| > 1 && s[1] == word[1])
  {
    assert s[..|word|][0] == s[0];
    assert |word| > 1 ==> s[..|word|][1] == s[1];
  }

  lemma ReadsWord(word: Str, v: Value, x: Str)
    requires (word == NULL && v == Null) || (word == TRUE && v == Bool(true)) || (word == FALSE && v == Bool(false))
    ensures ReadValue(word + x) == Some((v, x))
  {
    var s := word + x;
    assert s[0] == word[0] && s[..|word|] == word && s[|word|..] == x;
    assert Begins(s, word);
    if Begins(s, [0x6E, 0x75, 0x6C, 0x6C]) {
      BeginsWith(s, [0x6E, 0x75, 0x6C, 0x6C]);
    }
    if Begins(s, [0x74, 0x72, 0x75, 0x65]) {
      BeginsWith(s, [0x74, 0x72, 0x75, 0x65]);
    }
    hide ReadText;
  }

  /** A first character that begins no word. */
  lemma NoWord(s: Str)
    requires s != [] && s[0] != 0x6E && s[0] != 0x74 && s[0] != 0x66
    ensures !Begins(s, [0x6E, 0x75, 0x6C, 0x6C]) && !Begins(s, [0x74, 0x72, 0x75, 0x65])
    ensures !Begins(s, [0x66, 0x61, 0x6C, 0x73, 0x65])
  {
    if Begins(s, [0x6E, 0x75, 0x6C, 0x6C]) {
      BeginsWith(s, [0x6E, 0x75, 0x6C, 0x6C]);
    }
    if Begins(s, [0x74, 0x72, 0x75, 0x65]) {
      BeginsWith(s, [0x74, 0x72, 0x75, 0x65]);
    }
    if Begins(s, [0x66, 0x61, 0x6C, 0x73, 0x65]) {
      BeginsWith(s, [0x66, 0x61, 0x6C, 0x73, 0x65]);
    }
  }

  lemma ReadsQuoted(t: Str, x: Str)
    ensures ReadValue(Quote(t) + x) == Some((Text(t), x))
  {
    var s := Quote(t) + x;
    assert s[0] == 0x22 && s[1..] == QuoteBody(t) + x;
    NoWord(s);
    ReadsText(t, x);
    hide ReadText, QuoteBody, Begins;
  }

  lemma NoBrackets(s: Str)
    requires s != [] && s[0] != 0x5B && s[0] != 0x7B
    ensures !Begins(s, [0x5B, 0x5D]) && !Begins(s, [0x7B, 0x7D])
  {
    if Begins(s, [0x5B, 0x5D]) {
      BeginsWith(s, [0x5B, 0x5D]);
    }
    if Begins(s, [0x7B, 0x7D]) {
      BeginsWith(s, [0x7B, 0x7D]);
    }
  }

  lemma ReadsNumber(digits: Str, x: Str)
    requires IsNumber(digits) && Delimited(x)
    ensures ReadValue(digits + x) == Some((Num(digits), x))
  {
    var s := digits + x;
    NumberReaches(digits, x);
    assert s[0] == digits[0] && s[..|digits|] == digits && s[|digits|..] == x;
    NoWord(s);
    NoBrackets(s);
    hide ReadText, Begins, NumberLength;
  }

  lemma OpensItems(t: Str, items: seq<Value>, x: Str)
    requires t != [] && t[0] != 0x5D && ReadItems(t) == Some((items, x))
    ensures ReadValue([OPEN_LIST] + t) == Some((List(items), x))
  {
    var s := [OPEN_LIST] + t;
    assert s[1..] == t;
    NoWord(s);
    if Begins(s, [0x5B, 0x5D]) {
      BeginsWith(s, [0x5B, 0x5D]);
    }
    hide ReadItems, Begins, ReadText;
  }

  lemma OpensMembers(t: Str, ms: seq<Member>, x: Str)
    requires t != [] && t[0] != 0x7D && ReadMembers(t) == Some((ms, x))
    ensures ReadValue([OPEN_OBJECT] + t) == Some((Object(ms), x))
  {
    var s := [OPEN_OBJECT] + t;
    assert s[1..] == t;
    NoWord(s);
    if Begins(s, [0x7B, 0x7D]) {
      BeginsWith(s, [0x7B, 0x7D]);
    }
    if Begins(s, [0x5B, 0x5D]) {
      BeginsWith(s, [0x5B, 0x5D]);
    }
    hide ReadMembers, Begins, ReadText;
  }

  lemma ReadsEmpty(x: Str)
    ensures ReadValue([OPEN_LIST, CLOSE_LIST] + x) == Some((List([]), x))
    ensures ReadValue([OPEN_OBJECT, CLOSE_OBJECT] + x) == Some((Object([]), x))
  {
    var s, t := [OPEN_LIST, CLOSE_LIST] + x, [OPEN_OBJECT, CLOSE_OBJECT] + x;
    assert s[..2] == [0x5B, 0x5D] && s[2..] == x && t[..2] == [0x7B, 0x7D] && t[2..] == x;
    NoWord(s);
    NoWord(t);
    if Begins(t, [0x5B, 0x5D]) {
      BeginsWith(t, [0x5B, 0x5D]);
    }
    assert Begins(s, [0x5B, 0x5D]) && Begins(t, [0x7B, 0x7D]);
    hide Begins, ReadText;
  }

  lemma LastItem(s: Str, v: Value, rest: Str)
    requires ReadValue(s) == Some((v, rest)) && rest != [] && rest[0] == CLOSE_LIST
    ensures ReadItems(s) == Some(([v], rest[1..]))
  {
    hide ReadValue;
  }

  lemma MoreItems(s: Str, v: Value, rest: Str, vs: seq<Value>, x: Str)
    requires ReadValue(s) == Some((v, rest)) && rest != [] && rest[0] == COMMA
    requires ReadItems(rest[1..]) == Some((vs, x))
    ensures ReadItems(s) == Some(([v] + vs, x))
  {
    hide ReadValue;
  }

  lemma ReadsKey(k: Str, t: Str)
    ensures var s := Quote(k) + ([COLON] + t);
            s[0] == 0x22 && ReadText(s[1..]) == Some((k, [COLON] + t)) && ([COLON] + t)[1..] == t
  {
    var s := Quote(k) + ([COLON] + t);
    assert s[1..] == QuoteBody(k) + ([COLON] + t);
    ReadsText(k, [COLON] + t);
    hide ReadText, QuoteBody;
  }

  lemma LastMember(k: Str, t: Str, v: Value, rest: Str)
    requires ReadValue(t) == Some((v, rest)) && rest != [] && rest[0] == CLOSE_OBJECT
    ensures ReadMembers(Quote(k) + ([COLON] + t)) == Some(([Member(k, v)], rest[1..]))
  {
    ReadsKey(k, t);
    hide ReadValue, ReadText, Quote;
  }

  lemma MoreMembers(k: Str, t: Str, v: Value, rest: Str, ms: seq<Member>, x: Str)
    requires ReadValue(t) == Some((v, rest)) && rest != [] && rest[0] == COMMA
    requires ReadMembers(rest[1..]) == Some((ms, x))
    ensures ReadMembers(Quote(k) + ([COLON] + t)) == Some(([Member(k, v)] + ms, x))
  {
    ReadsKey(k, t);
    hide ReadValue, ReadText, Quote;
  }

  lemma ReadsScalar(v: Value, x: Str)
    requires Valid(v) && Delimited(x) && !v.List? && !v.Object?
    ensures ReadValue(Print(v) + x) == Some((Normal(v), x))
  {
    hide ReadValue;
    match v
    case Text(t) => ReadsQuoted(t, x);
    case Num(digits) => ReadsNumber(digits, x);
    case Bool(b) => ReadsWord(Print(v), v, x);
    case _ => ReadsWord(NULL, Null, x);
  }

  // ----- Reading back -----

  /** Reading what was printed, wherever it stands, gives the value back up to key order, and stops where it ended. */
  lemma {:induction false} ReadsBack(v: Value, x: Str)
    requires Valid(v) && Delimited(x)
    ensures ReadValue(Print(v) + x) == Some((Normal(v), x))
    decreases v, 1, 0
  {
    if v.List? {
      ListBody(v.items, x);
      ReadsList(v.items, x);
    } else if v.Object? {
      ReadsObject(v, x);
    } else {
      ReadsScalar(v, x);
    }
  }

  lemma ReadsList(items: seq<Value>, x: Str)
    requires (forall i | 0 <= i < |items| :: Valid(items[i])) && Delimited(x)
    ensures ReadValue(Print(List(items)) + x) == Some((Normal(List(items)), x))
    decreases items, 1, 0
  {
    var t := PrintItems(items) + ([CLOSE_LIST] + x);
    var s := Print(List(items)) + x;
    ListBody(items, x);
    assert s == [OPEN_LIST] + t;
    ItemsStart(items, x);
    if items == [] {
      assert s == [OPEN_LIST, CLOSE_LIST] + x;
      ReadsEmpty(x);
    } else {
      ReadsItems(items, x);
      hide *;
      OpensItems(t, NormalItems(items), x);
      NormalList(items);
    }
  }

  lemma NormalList(items: seq<Value>)
    ensures Normal(List(items)) == List(NormalItems(items))
  {
  }

  lemma {:induction false} ReadsItems(items: seq<Value>, x: Str)
    requires items != [] && forall i | 0 <= i < |items| :: Valid(items[i])
    ensures ReadItems(PrintItems(items) + ([CLOSE_LIST] + x)) == Some((NormalItems(items), x))
    decreases items, 0, 0
  {
    var s, rest := PrintItems(items) + ([CLOSE_LIST] + x), AfterItem(items, x);
    FirstItem(items, x);
    ReadsBack(items[0], rest);
    if |items| > 1 {
      ReadsItems(items[1..], x);
      assert rest[0] == COMMA by { FirstOfRest(items, x); }
      hide *;
      MoreItems(s, Normal(items[0]), rest, NormalItems(items[1..]), x);
      assert NormalItems(items) == [Normal(items[0])] + NormalItems(items[1..]);
    } else {
      hide Print, PrintItems, ReadValue, ReadItems, Normal, Valid;
      LastItem(s, Normal(items[0]), rest);
      assert NormalItems(items) == [Normal(items[0])];
    }
  }

  lemma FirstOfRest(items: seq<Value>, x: Str)
    requires |items| > 1
    ensures AfterItem(items, x)[0] == COMMA
  {
  }

  lemma ReadsObject(v: Value, x: Str)
    requires v.Object? && Valid(v) && Delimited(x)
    ensures ReadValue(Print(v) + x) == Some((Normal(v), x))
    decreases v, 0, |v.members| + 2
  {
    var keys := Sort(KeysOf(v.members));
    var t, s := PrintMembers(v, keys) + ([CLOSE_OBJECT] + x), Print(v) + x;
    ObjectBody(v, x);
    assert s == [OPEN_OBJECT] + t;
    MembersStart(v, keys, x);
    NormalObject(v);
    if keys == [] {
      assert s == [OPEN_OBJECT, CLOSE_OBJECT] + x;
      ReadsEmpty(x);
    } else {
      ReadsMembers(v, keys, x);
      hide *;
      OpensMembers(t, NormalMembers(v, keys), x);
    }
  }

  lemma NormalObject(v: Value)
    requires v.Object?
    ensures Normal(v) == Object(NormalMembers(v, Sort(KeysOf(v.members))))
  {
  }

  lemma {:induction false} ReadsMembers(v: Value, keys: seq<Str>, x: Str)
    requires v.Object? && Valid(v) && keys != [] && forall k | k in keys :: k in KeysOf(v.members)
    ensures ReadMembers(PrintMembers(v, keys) + ([CLOSE_OBJECT] + x)) == Some((NormalMembers(v, keys), x))
    decreases v, 0, |keys|
  {
    var rest := AfterMember(v, keys, x);
    var first, t := Normal(At(v, keys[0])), Print(At(v, keys[0])) + rest;
    FirstMember(v, keys, x);
    ValidAt(v, keys[0]);
    ReadsBack(At(v, keys[0]), rest);
    if |keys| > 1 {
      ReadsMembers(v, keys[1..], x);
      assert rest[0] == COMMA;
      hide *;
      MoreMembers(keys[0], t, first, rest, NormalMembers(v, keys[1..]), x);
      assert NormalMembers(v, keys) == [Member(keys[0], first)] + NormalMembers(v, keys[1..]);
    } else {
      hide *;
      LastMember(keys[0], t, first, rest);
      assert NormalMembers(v, keys) == [Member(keys[0], first)];
    }
  }

  // ----- And it is the value -----

  lemma {:induction false} NormalIsEquivalent(v: Value)
    requires Valid(v)
    ensures Equivalent(v, Normal(v))
    decreases v
  {
    match v
    case List(items) =>
      forall i | 0 <= i < |items| ensures Equivalent(items[i], Normal(items[i])) {
        NormalIsEquivalent(items[i]);
      }
    case Object(ms) =>
      var w := Normal(v);
      forall k | k in KeysOf(ms) ensures Equivalent(At(v, k), At(w, k)) && k in KeysOf(w.members) {
        NormalAt(v, k);
        ValidAt(v, k);
        NormalIsEquivalent(At(v, k));
      }
      forall k | k in KeysOf(w.members) ensures k in KeysOf(ms) {
        NormalKey(v, k);
      }
    case _ =>
  }

  lemma NormalKey(v: Value, k: Str)
    requires v.Object?
    ensures k in KeysOf(Normal(v).members) <==> k in KeysOf(v.members)
  {
    var keys := Sort(KeysOf(v.members));
    assert KeysOf(NormalMembers(v, keys)) == keys;
  }

  lemma NormalAt(v: Value, k: Str)
    requires v.Object? && k in KeysOf(v.members)
    ensures k in KeysOf(Normal(v).members) && At(Normal(v), k) == Normal(At(v, k))
  {
    NormalKey(v, k);
    var ms := Normal(v).members;
    var i := IndexOf(ms, k);
    assert ms[i] == Member(k, Normal(At(v, k)));
  }

  /** Round trip: what the printer writes reads as a value that is the printed one up to key order and up to what JSON
      writes as null. */
  lemma RoundTrip(v: Value)
    requires Valid(v)
    ensures ReadValue(Print(v)) == Some((Normal(v), [])) && Equivalent(v, Normal(v))
  {
    ReadsBack(v, []);
    assert Print(v) + [] == Print(v);
    NormalIsEquivalent(v);
  }

  /** The keys of what is read ascend by code unit, so the printed text has them in that order. */
  lemma KeysAscend(v: Value)
    requires Valid(v) && v.Object?
    ensures Ascending(KeysOf(Normal(v).members))
  {
    SortAscends(KeysOf(v.members));
    var keys := Sort(KeysOf(v.members));
    assert KeysOf(NormalMembers(v, keys)) == keys;
  }

  /** `b` continues `a`, or their first difference is smaller in `a`. */
  predicate StandsBefore(a: Str, b: Str, i: nat) {
    i <= |a| && i < |b| && a[..i] == b[..i] && (i < |a| ==> a[i] < b[i])
  }

  lemma SharedFirst(a: Str, b: Str, i: nat)
    requires StandsBefore(a, b, i) && i > 0
    ensures a != [] && b != [] && a[0] == b[0]
  {
    assert a[..i][0] == b[..i][0];
  }

  /** The order is that of the code units: the first difference decides, and a text stands before its continuations. */
  lemma {:induction false} LessIsByCodeUnit(a: Str, b: Str)
    ensures Less(a, b) <==> exists i: nat :: StandsBefore(a, b, i)
    decreases |a|
  {
    if a != [] && b != [] && a[0] == b[0] {
      LessIsByCodeUnit(a[1..], b[1..]);
      if i: nat :| StandsBefore(a[1..], b[1..], i) {
        assert a[..i + 1] == [a[0]] + a[1..][..i] && b[..i + 1] == [b[0]] + b[1..][..i];
        assert StandsBefore(a, b, i + 1);
      }
      if i: nat :| StandsBefore(a, b, i) {
        assert i > 0;
        assert a[1..][..i - 1] == a[..i][1..] && b[1..][..i - 1] == b[..i][1..];
        assert StandsBefore(a[1..], b[1..], i - 1);
      }
    } else {
      if i: nat :| StandsBefore(a, b, i) && i > 0 {
        SharedFirst(a, b, i);
      }
      if Less(a, b) {
        assert StandsBefore(a, b, 0);
      }
    }
  }
}
