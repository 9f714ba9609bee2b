/** LIKE with escape `\` (PostgreSQL documentation, section 9.7.1) and the escaping of user search text. */
module Like {

  predicate IsSpecial(c: char) {
    c == '\\' || c == '%' || c == '_'
  }

  /** `escapeLikePattern`: a backslash before each special character. */
  function Escape(q: string): string {
    if q == "" then ""
    else (if IsSpecial(q[0]) then ['\\', q[0]] else [q[0]]) + Escape(q[1..])
  }

  /** Does `s` match pattern `p` as a whole? `%` stands for any run of characters, `_` for any one, and an
      escaped character for itself. A pattern that ends in the escape character is an error in the database;
      it matches nothing here and escaping never makes one. */
  predicate Matches(s: string, p: string)
    decreases |p|, |s|
  {
    if p == "" then s == ""
    else if p[0] == '%' then Matches(s, p[1..]) || (s != "" && Matches(s[1..], p))
    else if p[0] == '\\' then |p| >= 2 && s != "" && s[0] == p[1] && Matches(s[1..], p[2..])
    else s != "" && (p[0] == '_' || s[0] == p[0]) && Matches(s[1..], p[1..])
  }

  /** Case folding, one character at a time, applied to both sides before matching. */
  function Fold(fold: char -> char, s: string): (r: string)
    ensures |r| == |s|
  {
    seq(|s|, i requires 0 <= i < |s| => fold(s[i]))
  }

  /** The fold leaves `%` and the escape character alone and makes neither them nor `_` out of an ordinary character.
      Where it takes `_` does not matter. */
  ghost predicate FoldsCleanly(fold: char -> char) {
    fold('%') == '%' && fold('\\') == '\\' && forall c: char | IsSpecial(fold(c)) :: IsSpecial(c)
  }

  /** `s ILIKE p ESCAPE '\'`. */
  predicate MatchesFolded(fold: char -> char, s: string, p: string) {
    Matches(Fold(fold, s), Fold(fold, p))
  }

  /** `s.includes(q)`: `q` occurs in `s` at some position. */
  ghost predicate Includes(s: string, q: string) {
    exists i :: OccursAt(s, q, i)
  }

  predicate OccursAt(s: string, q: string, i: int) {
    0 <= i <= |s| - |q| && s[i..i + |q|] == q
  }

  /** The pattern the query builder binds. */
  function SearchPattern(q: string): string {
    "%" + Escape(q) + "%"
  }

  // ----- Literal matching -----

  lemma PercentMatchesAll(s: string)
    ensures Matches(s, "%")
  {
    if s == "" {
      assert Matches(s, "%"[1..]);
    } else {
      PercentMatchesAll(s[1..]);
    }
  }

  lemma FoldHead(fold: char -> char, s: string)
    requires s != ""
    ensures Fold(fold, s) == [fold(s[0])] + Fold(fold, s[1..])
  {
  }

  lemma FoldConcat(fold: char -> char, a: string, b: string)
    ensures Fold(fold, a + b) == Fold(fold, a) + Fold(fold, b)
  {
  }

  /** Folded after escaping, a character matches what it folds to. */
  lemma FoldedHead(fold: char -> char, s: string, q: string)
    requires FoldsCleanly(fold) && q != ""
    ensures Matches(s, Fold(fold, Escape(q)) + "%") <==>
            s != "" && s[0] == fold(q[0]) && Matches(s[1..], Fold(fold, Escape(q[1..])) + "%")
  {
    var rest := Fold(fold, Escape(q[1..])) + "%";
    var head := if IsSpecial(q[0]) then ['\\', q[0]] else [q[0]];
    FoldConcat(fold, head, Escape(q[1..]));
    var p := Fold(fold, Escape(q)) + "%";
    assert p == Fold(fold, head) + rest;
    if IsSpecial(q[0]) {
      assert p[0] == '\\' && p[1] == fold(q[0]) && p[2..] == rest;
    } else {
      assert p[0] == fold(q[0]) && p[1..] == rest;
    }
  }

  lemma {:induction false} FoldedPrefix(fold: char -> char, s: string, q: string)
    requires FoldsCleanly(fold)
    ensures Matches(s, Fold(fold, Escape(q)) + "%") <==> Fold(fold, q) <= s
    decreases |q|
  {
    if q == "" {
      assert Fold(fold, Escape(q)) + "%" == "%" && Fold(fold, q) == "";
      PercentMatchesAll(s);
    } else {
      FoldedHead(fold, s, q);
      FoldHead(fold, q);
      hide Escape, Matches, Fold;
      if s != "" {
        FoldedPrefix(fold, s[1..], q[1..]);
        assert s == [s[0]] + s[1..];
      }
    }
  }

  /** The folded pattern finds exactly the folded query. */
  lemma {:induction false} FoldedSearch(fold: char -> char, s: string, q: string)
    requires FoldsCleanly(fold)
    ensures Matches(s, Fold(fold, SearchPattern(q))) <==> Includes(s, Fold(fold, q))
    decreases |s|
  {
    var p, f := Fold(fold, SearchPattern(q)), Fold(fold, q);
    FoldConcat(fold, "%", Escape(q) + "%");
    FoldConcat(fold, Escape(q), "%");
    assert Fold(fold, "%") == "%";
    assert p[0] == '%' && p[1..] == Fold(fold, Escape(q)) + "%";
    FoldedPrefix(fold, s, q);
    IncludesHere(s, f);
    hide Fold, Escape, Includes;
    if s != "" {
      FoldedSearch(fold, s[1..], q);
    }
  }

  /** A text occurs at the start, or further on. */
  lemma IncludesHere(s: string, q: string)
    ensures Includes(s, q) <==> q <= s || (s != "" && Includes(s[1..], q))
  {
    if q <= s {
      assert OccursAt(s, q, 0);
    }
    if i :| OccursAt(s, q, i) && i > 0 {
      assert s[1..][i - 1..i - 1 + |q|] == s[i..i + |q|];
      assert OccursAt(s[1..], q, i - 1);
    }
    if s != "" {
      if i :| OccursAt(s[1..], q, i) {
        assert s[i + 1..i + 1 + |q|] == s[1..][i..i + |q|];
        assert OccursAt(s, q, i + 1);
      }
    }
  }

  lemma SearchPatternMatches(s: string, q: string)
    ensures Matches(s, SearchPattern(q)) <==> Includes(s, q)
  {
    FoldedSearch(c => c, s, q);
    assert Fold(c => c, SearchPattern(q)) == SearchPattern(q) && Fold(c => c, q) == q;
  }

  lemma {:induction false} FoldEscape(fold: char -> char, q: string)
    requires FoldsCleanly(fold) && fold('_') == '_'
    ensures Fold(fold, Escape(q)) == Escape(Fold(fold, q))
  {
    if q != "" {
      FoldEscape(fold, q[1..]);
      assert Fold(fold, q)[1..] == Fold(fold, q[1..]);
      var head := if IsSpecial(q[0]) then ['\\', q[0]] else [q[0]];
      assert Fold(fold, head + Escape(q[1..])) == Fold(fold, head) + Fold(fold, Escape(q[1..]));
      assert IsSpecial('\\');
    } else {
      assert Fold(fold, q) == "";
    }
  }

  /** Literal search: under ILIKE the bound pattern matches a value exactly when the folded query text is a
      substring of the folded value, which is what the in-memory search tests. No character of the query is
      ever a wildcard. */
  lemma LiteralSearch(fold: char -> char, s: string, q: string)
    requires FoldsCleanly(fold)
    ensures MatchesFolded(fold, s, SearchPattern(q)) <==> Includes(Fold(fold, s), Fold(fold, q))
  {
    FoldedSearch(fold, Fold(fold, s), q);
  }

  /** Unescaped text is not literal: the query `%` would match every value, although most do not contain it. */
  lemma UnescapedTextIsNotLiteral(s: string)
    requires '%' !in s
    ensures Matches(s, "%" + "%" + "%") && !Includes(s, "%")
  {
    PercentMatchesAll(s);
    assert ("%" + "%" + "%")[1..] == "%" + "%" && ("%" + "%")[1..] == "%";
    assert Matches(s, "%" + "%");
    forall i ensures !OccursAt(s, "%", i) {
      if 0 <= i <= |s| - 1 {
        assert s[i..i + 1][0] == s[i];
      }
    }
  }

  ghost predicate SearchesLiterally(fold: char -> char, s: string, q: string) {
    MatchesFolded(fold, s, SearchPattern(q)) <==> Includes(Fold(fold, s), Fold(fold, q))
  }

  lemma {:induction false} TooShort(s: string, c: char, d: char)
    requires c != '%' && d != '%' && c != '\\' && |s| <= 1
    ensures !Matches(s, "%" + [c, d] + "%") && !Matches(s, [c, d] + "%")
    decreases |s|
  {
    var p := [c, d] + "%";
    assert p[1..] == [d] + "%";
    assert ("%" + [c, d] + "%")[1..] == p;
    assert s != "" ==> !Matches(s[1..], [d] + "%");
    if s != "" {
      TooShort(s[1..], c, d);
    }
  }

  /** A text with which a search goes wrong under any other fold. */
  lemma OtherFoldsFail(fold: char -> char) returns (s: string, q: string)
    requires !FoldsCleanly(fold)
    ensures !SearchesLiterally(fold, s, q)
  {
    if fold('%') != '%' {
      s, q := "", "";
      assert OccursAt("", "", 0);
      assert Fold(fold, SearchPattern("")) == [fold('%'), fold('%')];
    } else if fold('\\') == '%' {
      s, q := "", "\\";
      assert Fold(fold, SearchPattern(q)) == "%" + "%" + "%" + "%" by { assert q[1..] == ""; }
      EmptyMatches("%" + "%" + "%" + "%");
      assert Fold(fold, s) == "" && Fold(fold, q) == "%";
      OneCharacter("", '%');
    } else if fold('\\') != '\\' {
      s, q := "\\", "\\";
      var d := fold('\\');
      assert Fold(fold, SearchPattern(q)) == "%" + [d, d] + "%" by { assert q[1..] == ""; }
      TooShort([d], d, d);
      OneCharacter([d], d);
      assert Fold(fold, s) == [d];
    } else {
      var c: char :| IsSpecial(fold(c)) && !IsSpecial(c);
      q := [c];
      assert Escape(q) == [c] by { assert q[1..] == ""; }
      assert Fold(fold, SearchPattern(q)) == "%" + [fold(c)] + "%";
      s := FoldedIntoSpecial(fold, c);
      assert Fold(fold, q) == [fold(c)];
    }
  }

  lemma EmptyMatches(p: string)
    requires forall i | 0 <= i < |p| :: p[i] == '%'
    ensures Matches("", p)
  {
  }

  lemma OneCharacter(s: string, c: char)
    requires |s| <= 1
    ensures Includes(s, [c]) <==> s == [c]
  {
    if s == [c] {
      assert OccursAt(s, [c], 0);
    }
    if i :| OccursAt(s, [c], i) {
      assert i == 0 && s[0..1] == s;
    }
  }

  lemma FoldedIntoSpecial(fold: char -> char, c: char) returns (s: string)
    requires fold('%') == '%' && fold('\\') == '\\' && IsSpecial(fold(c)) && !IsSpecial(c)
    ensures Matches(Fold(fold, s), "%" + [fold(c)] + "%") <==> !Includes(Fold(fold, s), [fold(c)])
  {
    var p := "%" + [fold(c)] + "%";
    assert p[1..] == [fold(c)] + "%" && p[1..][1..] == "%" && p[1..][1..][1..] == "";
    if fold(c) == '%' {
      s := "";
      EmptyMatches(p);
      assert Fold(fold, s) == "";
      OneCharacter("", '%');
    } else if fold(c) == '_' {
      s := "\\";
      assert Fold(fold, s) == "\\";
      PercentMatchesAll("");
      OneCharacter("\\", '_');
    } else {
      s := [c];
      assert Fold(fold, s) == "\\";
      OneCharacter("\\", '\\');
      assert !Matches("", p[1..]) && !Matches("\\", p[1..]);
      assert !Matches("", p);
    }
  }

  /** Every search is literal under a fold if and only if the fold is clean in this sense. */
  lemma LiteralSearchIff(fold: char -> char)
    ensures (forall s, q :: SearchesLiterally(fold, s, q)) <==> FoldsCleanly(fold)
  {
    if FoldsCleanly(fold) {
      forall s, q ensures SearchesLiterally(fold, s, q) {
        LiteralSearch(fold, s, q);
      }
    } else {
      var s, q := OtherFoldsFail(fold);
    }
  }

  /** A fold that turned an ordinary character into `%` would break the agreement, so the condition is needed. */
  lemma FoldMustKeepSpecials(fold: char -> char, c: char)
    requires !IsSpecial(c) && fold(c) == '%' && fold('%') == '%' && fold('a') == 'a'
    ensures MatchesFolded(fold, "a", SearchPattern([c])) && !Includes(Fold(fold, "a"), Fold(fold, [c]))
  {
    assert Escape([c]) == [c] by { assert [c][1..] == ""; }
    assert Fold(fold, SearchPattern([c])) == "%" + "%" + "%";
    assert Fold(fold, "a") == "a" && Fold(fold, [c]) == "%";
    UnescapedTextIsNotLiteral("a");
  }
}
