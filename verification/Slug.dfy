/** Tag slugs: the chain of text replacements, what it amounts to, and when doing it again changes nothing. */
module Slug {
  import opened Options

  const DASH := '-'
  const CAP := 64

  predicate IsWordChar(c: char) {
    'a' <= c <= 'z' || '0' <= c <= '9'
  }

  // ----- The chain -----

  /** Decomposition, dropping combining marks and lower-casing, as one fold: each character becomes some text. */
  function FoldAll(fold: char -> string, s: string): string {
    if s == [] then [] else fold(s[0]) + FoldAll(fold, s[1..])
  }

  /** The fold leaves what a slug is made of alone. */
  ghost predicate KeepsSlugChars(fold: char -> string) {
    forall c | IsWordChar(c) || c == DASH :: fold(c) == [c]
  }

  /** Every run of other characters becomes one dash; `inRun` says that its dash is already there. */
  function Dashes(s: string, inRun: bool): string {
    if s == [] then []
    else if IsWordChar(s[0]) then [s[0]] + Dashes(s[1..], false)
    else if inRun then Dashes(s[1..], true)
    else [DASH] + Dashes(s[1..], true)
  }

  function TrimLeft(s: string): string {
    if s != [] && s[0] == DASH then TrimLeft(s[1..]) else s
  }

  function TrimRight(s: string): string {
    if s != [] && s[|s| - 1] == DASH then TrimRight(s[..|s| - 1]) else s
  }

  function Uncut(fold: char -> string, s: string): string {
    TrimRight(TrimLeft(Dashes(FoldAll(fold, s), false)))
  }

  function Cut(s: string): string {
    if |s| <= CAP then s else s[..CAP]
  }

  /** `None` is an input that is not a text. */
  function Slugify(fold: char -> string, input: Option<string>): string {
    if input.None? then [] else Cut(Uncut(fold, input.value))
  }

  // ----- What it amounts to: the words, joined by dashes -----

  /** The maximal runs of word characters, the first one continuing `word`. */
  function Words(word: string, s: string): seq<string>
    decreases |s|
  {
    if s == [] then One(word)
    else if IsWordChar(s[0]) then Words(word + [s[0]], s[1..])
    else One(word) + Words([], s[1..])
  }

  function One(word: string): seq<string> {
    if word == [] then [] else [word]
  }

  function Join(words: seq<string>): string {
    if words == [] then []
    else if |words| == 1 then words[0]
    else words[0] + [DASH] + Join(words[1..])
  }

  lemma {:induction false} TrimRightConcat(a: string, b: string)
    ensures TrimRight(a + b) == if TrimRight(b) == [] then TrimRight(a) else a + TrimRight(b)
    decreases |b|
  {
    if b == [] {
      assert a + b == a;
    } else if b[|b| - 1] == DASH {
      assert (a + b)[..|a + b| - 1] == a + b[..|b| - 1];
      TrimRightConcat(a, b[..|b| - 1]);
    }
  }

  predicate AllWordChars(s: string) {
    forall i | 0 <= i < |s| :: IsWordChar(s[i])
  }

  lemma {:induction false} WordsAreWords(word: string, s: string)
    requires AllWordChars(word)
    ensures forall i | 0 <= i < |Words(word, s)| :: Words(word, s)[i] != [] && AllWordChars(Words(word, s)[i])
    ensures word != [] ==> Words(word, s) != []
    decreases |s|
  {
    if s != [] {
      WordsAreWords(if IsWordChar(s[0]) then word + [s[0]] else [], s[1..]);
    }
  }

  lemma JoinIsEmpty(words: seq<string>)
    requires forall i | 0 <= i < |words| :: words[i] != []
    ensures Join(words) == [] <==> words == []
  {
  }

  lemma WordStaysWhole(word: string)
    requires AllWordChars(word)
    ensures TrimRight(word) == word
  {
  }

  lemma WordBefore(word: string, rest: string, words: seq<string>)
    requires word != [] && AllWordChars(word) && TrimRight(rest) == Join(words)
    requires forall i | 0 <= i < |words| :: words[i] != []
    ensures TrimRight(word + ([DASH] + rest)) == Join([word] + words)
  {
    JoinIsEmpty(words);
    assert word + ([DASH] + rest) == (word + [DASH]) + rest;
    TrimRightConcat(word + [DASH], rest);
    assert (word + [DASH])[..|word|] == word;
    WordStaysWhole(word);
    assert ([word] + words)[1..] == words;
  }

  /** After a run, or after the beginning, the trimmed rest is its words joined; a word before it joins them. */
  lemma {:induction false} TrimmedIsJoined(word: string, s: string)
    requires AllWordChars(word)
    ensures TrimRight(word + Dashes(s, word == [])) == Join(Words(word, s))
    decreases |s|
  {
    if s == [] {
      assert word + [] == word;
      WordStaysWhole(word);
    } else if IsWordChar(s[0]) {
      hide TrimRight, Join;
      assert word + ([s[0]] + Dashes(s[1..], false)) == (word + [s[0]]) + Dashes(s[1..], false);
      TrimmedIsJoined(word + [s[0]], s[1..]);
    } else {
      hide TrimRight, Join;
      var rest, words := Dashes(s[1..], true), Words([], s[1..]);
      TrimmedIsJoined([], s[1..]);
      assert [] + rest == rest;
      if word != [] {
        WordsAreWords([], s[1..]);
        WordBefore(word, rest, words);
      } else {
        assert One([]) + words == words;
      }
    }
  }

  lemma {:induction false} LeadingDashGoes(s: string)
    ensures TrimLeft(Dashes(s, false)) == Dashes(s, true)
    ensures Dashes(s, true) == [] || Dashes(s, true)[0] != DASH
  {
    if s != [] && !IsWordChar(s[0]) {
      LeadingDashGoes(s[1..]);
      assert ([DASH] + Dashes(s[1..], true))[1..] == Dashes(s[1..], true);
    }
  }

  /** Before the cut, a slug is the words of the folded text joined by single dashes. */
  lemma UncutIsJoinedWords(fold: char -> string, s: string)
    ensures Uncut(fold, s) == Join(Words([], FoldAll(fold, s)))
  {
    var f := FoldAll(fold, s);
    LeadingDashGoes(f);
    TrimmedIsJoined([], f);
    assert [] + Dashes(f, true) == Dashes(f, true);
  }

  /** It is empty exactly when the folded text has no word character. */
  lemma EmptyForPunctuation(fold: char -> string, s: string)
    ensures Slugify(fold, Some(s)) == [] <==>
            forall c | c in FoldAll(fold, s) :: !('a' <= c <= 'z') && !('0' <= c <= '9')
  {
    var f := FoldAll(fold, s);
    UncutIsJoinedWords(fold, s);
    WordsAreWords([], f);
    JoinIsEmpty(Words([], f));
    NoWords([], f);
    assert (forall c | c in f :: !IsWordChar(c)) <==> forall i | 0 <= i < |f| :: !IsWordChar(f[i]);
  }

  /** The lower-case letters and digits of a text. */
  function LettersAndDigits(s: string): string {
    if s == [] then []
    else (if 'a' <= s[0] <= 'z' || '0' <= s[0] <= '9' then [s[0]] else []) + LettersAndDigits(s[1..])
  }

  lemma {:induction false} DashesKeepLetters(s: string, inRun: bool)
    ensures LettersAndDigits(Dashes(s, inRun)) == LettersAndDigits(s)
  {
    if s != [] {
      DashesKeepLetters(s[1..], !IsWordChar(s[0]));
      assert ([s[0]] + Dashes(s[1..], false))[1..] == Dashes(s[1..], false);
      assert ([DASH] + Dashes(s[1..], true))[1..] == Dashes(s[1..], true);
    }
  }

  lemma {:induction false} LettersConcat(a: string, b: string)
    ensures LettersAndDigits(a + b) == LettersAndDigits(a) + LettersAndDigits(b)
  {
    if a == [] {
      assert a + b == b;
    } else {
      assert (a + b)[1..] == a[1..] + b;
      LettersConcat(a[1..], b);
    }
  }

  lemma {:induction false} TrimLeftKeepsLetters(s: string)
    ensures LettersAndDigits(TrimLeft(s)) == LettersAndDigits(s)
  {
    if s != [] && s[0] == DASH {
      TrimLeftKeepsLetters(s[1..]);
    }
  }

  lemma {:induction false} TrimRightKeepsLetters(s: string)
    ensures LettersAndDigits(TrimRight(s)) == LettersAndDigits(s)
  {
    if s != [] && s[|s| - 1] == DASH {
      TrimRightKeepsLetters(s[..|s| - 1]);
      LettersConcat(s[..|s| - 1], [DASH]);
      assert s == s[..|s| - 1] + [DASH] && [DASH][1..] == [];
      assert LettersAndDigits([DASH]) == [];
    }
  }

  /** Before the cut a slug has all the lower-case letters and digits of the folded text, in order, and no others. */
  lemma UncutKeepsLetters(fold: char -> string, s: string)
    ensures LettersAndDigits(Uncut(fold, s)) == LettersAndDigits(FoldAll(fold, s))
  {
    DashesKeepLetters(FoldAll(fold, s), false);
    TrimLeftKeepsLetters(Dashes(FoldAll(fold, s), false));
    TrimRightKeepsLetters(TrimLeft(Dashes(FoldAll(fold, s), false)));
  }

  lemma {:induction false} NoWords(word: string, s: string)
    requires AllWordChars(word)
    ensures Words(word, s) == [] <==> word == [] && forall i | 0 <= i < |s| :: !IsWordChar(s[i])
    decreases |s|
  {
    if s != [] {
      NoWords(if IsWordChar(s[0]) then word + [s[0]] else [], s[1..]);
      assert s == [s[0]] + s[1..];
    }
  }

  // ----- The normal form -----

  /** Word characters and single dashes, no dash in front. */
  predicate Clean(s: string) {
    (forall i | 0 <= i < |s| :: IsWordChar(s[i]) || s[i] == DASH) &&
    (forall i | 0 <= i < |s| - 1 :: s[i] != DASH || s[i + 1] != DASH) &&
    (s != [] ==> s[0] != DASH)
  }

  predicate EndsInDash(s: string) {
    s != [] && s[|s| - 1] == DASH
  }

  lemma {:induction false} JoinIsClean(words: seq<string>)
    requires forall i | 0 <= i < |words| :: words[i] != [] && AllWordChars(words[i])
    ensures Clean(Join(words)) && !EndsInDash(Join(words)) && (words != [] ==> Join(words) != [])
  {
    if |words| > 1 {
      JoinIsClean(words[1..]);
      var a, b := words[0], Join(words[1..]);
      var s := a + [DASH] + b;
      forall i | 0 <= i < |s| - 1 ensures s[i] != DASH || s[i + 1] != DASH {
        if i < |a| {
          assert IsWordChar(a[i]);
        } else if i > |a| {
          assert s[i] == b[i - |a| - 1] && s[i + 1] == b[i - |a|];
        }
      }
    }
  }

  /** Every result is in normal form and at most 64 long. It ends in a dash exactly when the cut fell behind one. */
  lemma NormalForm(fold: char -> string, s: string)
    ensures var r := Slugify(fold, Some(s)); Clean(r) && |r| <= 64
    ensures |Uncut(fold, s)| <= 64 ==> Slugify(fold, Some(s)) == Uncut(fold, s)
    ensures |Uncut(fold, s)| > 64 ==> Slugify(fold, Some(s)) == Uncut(fold, s)[..64]
    ensures EndsInDash(Slugify(fold, Some(s))) <==>
            |Uncut(fold, s)| > CAP && Uncut(fold, s)[CAP - 1] == DASH
  {
    UncutIsJoinedWords(fold, s);
    WordsAreWords([], FoldAll(fold, s));
    JoinIsClean(Words([], FoldAll(fold, s)));
  }

  // ----- Doing it again -----

  lemma {:induction false} FoldKeeps(fold: char -> string, s: string)
    requires KeepsSlugChars(fold) && forall i | 0 <= i < |s| :: IsWordChar(s[i]) || s[i] == DASH
    ensures FoldAll(fold, s) == s
  {
    if s != [] {
      FoldKeeps(fold, s[1..]);
    }
  }

  lemma {:induction false} DashesKeep(s: string, inRun: bool)
    requires forall i | 0 <= i < |s| :: IsWordChar(s[i]) || s[i] == DASH
    requires forall i | 0 <= i < |s| - 1 :: s[i] != DASH || s[i + 1] != DASH
    requires inRun && s != [] ==> s[0] != DASH
    ensures Dashes(s, inRun) == s
  {
    if s != [] {
      DashesKeep(s[1..], s[0] == DASH);
    }
  }

  /** A slug of a clean text is that text without the dash it may end in. */
  lemma SlugOfClean(fold: char -> string, s: string)
    requires KeepsSlugChars(fold) && Clean(s) && |s| <= CAP
    ensures Slugify(fold, Some(s)) == if EndsInDash(s) then s[..|s| - 1] else s
  {
    FoldKeeps(fold, s);
    DashesKeep(s, false);
    assert TrimLeft(s) == s;
    if EndsInDash(s) {
      var t := s[..|s| - 1];
      assert t != [] ==> t[|t| - 1] == s[|s| - 2];
      assert TrimRight(t) == t;
    }
  }

  /** Doing it again changes nothing exactly when the result does not end in a dash, which is when the text before the
      cut is at most 64 long or has no dash in place 64. */
  lemma IdempotentUnlessCutAtADash(fold: char -> string, s: string)
    requires KeepsSlugChars(fold)
    ensures var r := Slugify(fold, Some(s));
            Slugify(fold, Some(r)) == r <==> !(|Uncut(fold, s)| > CAP && Uncut(fold, s)[CAP - 1] == DASH)
  {
    NormalForm(fold, s);
    SlugOfClean(fold, Slugify(fold, Some(s)));
  }

  /** Twice is always enough. */
  lemma TwiceIsThrice(fold: char -> string, s: string)
    requires KeepsSlugChars(fold)
    ensures var r := Slugify(fold, Some(Slugify(fold, Some(s))));
            Slugify(fold, Some(r)) == r && !EndsInDash(r)
  {
    NormalForm(fold, s);
    var r := Slugify(fold, Some(s));
    SlugOfClean(fold, r);
    var t := Slugify(fold, Some(r));
    assert t != [] && EndsInDash(r) ==> t[|t| - 1] == r[|r| - 2];
    assert Clean(t);
    SlugOfClean(fold, t);
  }

  /** The texts that are their own slug. */
  lemma OwnSlug(fold: char -> string, s: string)
    requires KeepsSlugChars(fold)
    ensures Slugify(fold, Some(s)) == s <==> Clean(s) && |s| <= CAP && !EndsInDash(s)
  {
    NormalForm(fold, s);
    if Clean(s) && |s| <= CAP {
      SlugOfClean(fold, s);
    }
  }

  /** A text whose slug is not its own: a word that fills 63 places, then a dash and another word. */
  lemma CutAtADash(fold: char -> string, word: string, more: string)
    requires KeepsSlugChars(fold) && |word| == 63 && AllWordChars(word)
    requires more != [] && AllWordChars(more)
    ensures Slugify(fold, Some(word + [DASH] + more)) == word + [DASH]
    ensures Slugify(fold, Some(word + [DASH])) == word
  {
    var s := word + [DASH] + more;
    FoldKeeps(fold, s);
    DashesKeep(s, false);
    assert IsWordChar(word[0]) && IsWordChar(more[|more| - 1]);
    assert TrimLeft(s) == s && TrimRight(s) == s;
    assert s[..CAP] == word + [DASH];
    SlugOfClean(fold, word + [DASH]);
    assert (word + [DASH])[..|word|] == word;
  }
}
