/** Verification of payee: name normalisation, token comparison and the verdict (payment/vop.go). */
module NameMatching {
  import opened Wrappers
  import opened Bank
  import opened EditDistance

  const SPACE: Rune := 32

  type Text = seq<Rune>

  /** A class of characters, given by its members or by the characters outside it. */
  datatype Class = In(members: set<Rune>) | Outside(members: set<Rune>)
  {
    predicate Has(c: Rune) {
      if In? then c in members else c !in members
    }
  }

  /** What the Unicode tables say about single characters: letters and digits, white space, lower case. */
  datatype Alphabet = Alphabet(words: set<Rune>, spaces: set<Rune>, lowerCase: map<Rune, Rune>)
  {
    const word := In(words)
    const printed := Outside(spaces)

    function ToLower(c: Rune): Rune {
      if c in lowerCase then lowerCase[c] else c
    }
  }

  /** White space is neither a letter nor a digit, and lower-casing is idempotent and keeps the classes. */
  ghost predicate Regular(al: Alphabet) {
    && SPACE in al.spaces && al.ToLower(SPACE) == SPACE && al.spaces !! al.words
    && (forall c :: al.ToLower(c) in al.words <==> c in al.words)
    && (forall c :: al.ToLower(al.ToLower(c)) == al.ToLower(c))
  }

  function Last<T>(s: seq<T>): T
    requires s != []
  {
    s[|s| - 1]
  }

  function Front<T>(s: seq<T>): seq<T>
    requires s != []
  {
    s[..|s| - 1]
  }

  predicate AllOf(s: Text, p: Class) {
    forall i :: 0 <= i < |s| ==> p.Has(s[i])
  }

  // ----- words -----

  /** The maximal runs of word characters, in order. */
  function Words(s: Text, word: Class): (words: seq<Text>)
    ensures s != [] && word.Has(Last(s)) ==> words != []
    ensures forall i :: 0 <= i < |words| ==> words[i] != [] && AllOf(words[i], word)
  {
    if s == [] then []
    else
      var before, c := Words(Front(s), word), Last(s);
      if !word.Has(c) then before
      else if Front(s) == [] || !word.Has(Last(Front(s))) then before + [[c]]
      else Front(before) + [Last(before) + [c]]
  }

  /** The words with one space between neighbours. */
  function Join(words: seq<Text>): Text {
    if words == [] then []
    else if |words| == 1 then words[0]
    else Join(Front(words)) + [SPACE] + Last(words)
  }

  predicate ProperWords(words: seq<Text>, word: Class) {
    forall i :: 0 <= i < |words| ==> words[i] != [] && AllOf(words[i], word)
  }

  lemma {:induction false} WordsOfWord(run: Text, word: Class)
    requires run != [] && AllOf(run, word)
    ensures Words(run, word) == [run]
  {
    if |run| > 1 {
      WordsOfWord(Front(run), word);
      assert Front(run) + [Last(run)] == run;
    } else {
      assert Front(run) == [] && run == [Last(run)];
    }
  }

  /** A separator starts the next word afresh. */
  lemma {:induction false} WordsThenWord(s: Text, run: Text, word: Class)
    requires s != [] && !word.Has(Last(s)) && run != [] && AllOf(run, word)
    ensures Words(s + run, word) == Words(s, word) + [run]
  {
    assert Front(s + run) == s + Front(run) && Last(s + run) == Last(run);
    if |run| > 1 {
      WordsThenWord(s, Front(run), word);
      assert Last(Front(s + run)) == Last(Front(run));
      assert Front(run) + [Last(run)] == run;
    } else {
      assert Front(run) == [] && s + Front(run) == s && run == [Last(run)];
    }
  }

  /** Splitting inverts joining. */
  lemma {:induction false} WordsOfJoin(words: seq<Text>, word: Class)
    requires ProperWords(words, word) && !word.Has(SPACE)
    ensures Words(Join(words), word) == words
    decreases |words|
  {
    if |words| == 1 {
      WordsOfWord(words[0], word);
      assert words == [words[0]];
    } else if |words| > 1 {
      JoinSplits(words);
      ProperSplits(words, word);
      hide Words, Join, ProperWords, AllOf;
      WordsOfJoin(Front(words), word);
      WordsOfLonger(Join(Front(words)), Last(words), word);
    }
  }

  lemma ProperSplits(words: seq<Text>, word: Class)
    requires words != [] && ProperWords(words, word)
    ensures ProperWords(Front(words), word) && Last(words) != [] && AllOf(Last(words), word)
    ensures Front(words) + [Last(words)] == words
  {
  }

  lemma JoinSplits(words: seq<Text>)
    requires |words| > 1
    ensures Join(words) == Join(Front(words)) + [SPACE] + Last(words)
  {
  }

  lemma WordsOfLonger(s: Text, run: Text, word: Class)
    requires !word.Has(SPACE) && run != [] && AllOf(run, word)
    ensures Words(s + [SPACE] + run, word) == Words(s, word) + [run]
  {
    SeparatorKeepsWords(s, SPACE, word);
    assert Last(s + [SPACE]) == SPACE;
    WordsThenWord(s + [SPACE], run, word);
  }

  lemma SeparatorKeepsWords(s: Text, c: Rune, word: Class)
    requires !word.Has(c)
    ensures Words(s + [c], word) == Words(s, word)
  {
    assert Front(s + [c]) == s && Last(s + [c]) == c;
  }

  lemma {:induction false} WordsSkipFirst(c: Rune, s: Text, word: Class)
    requires !word.Has(c)
    ensures Words([c] + s, word) == Words(s, word)
    decreases |s|
  {
    if s == [] {
      assert [c] + s == [c] && Front([c]) == [];
    } else {
      WordsSkipFirst(c, Front(s), word);
      assert Front([c] + s) == [c] + Front(s) && Last([c] + s) == Last(s);
      assert Front(s) != [] ==> Last([c] + Front(s)) == Last(Front(s));
    }
  }

  /** Only the classes of the characters that occur matter. */
  lemma {:induction false} WordsAgree(s: Text, p: Class, q: Class)
    requires forall i :: 0 <= i < |s| ==> p.Has(s[i]) == q.Has(s[i])
    ensures Words(s, p) == Words(s, q)
    decreases |s|
  {
    if s != [] {
      WordsAgree(Front(s), p, q);
      assert p.Has(Last(s)) == q.Has(Last(s));
      if |s| > 1 {
        assert Last(Front(s)) == s[|s| - 2];
      }
    }
  }

  lemma {:induction false} JoinClasses(words: seq<Text>, word: Class)
    requires ProperWords(words, word)
    ensures words != [] ==> Join(words) != [] && word.Has(Join(words)[0]) && word.Has(Last(Join(words)))
    decreases |words|
  {
    if |words| > 1 {
      JoinClasses(Front(words), word);
    }
  }

  /** Appending to the joined text: a letter to the last word, or a first letter after a space. */
  lemma JoinGrows(words: seq<Text>, c: Rune)
    ensures words != [] ==> Join(Front(words) + [Last(words) + [c]]) == Join(words) + [c]
    ensures Join(words + [[c]]) == if words == [] then [c] else Join(words) + [SPACE] + [c]
  {
    if words != [] {
      LastWordGrows(words, c);
      assert Front(words + [[c]]) == words;
    }
  }

  lemma LastWordGrows(words: seq<Text>, c: Rune)
    requires words != []
    ensures Join(Front(words) + [Last(words) + [c]]) == Join(words) + [c]
  {
    var init, last := Front(words), Last(words);
    var longer := init + [last + [c]];
    assert Front(longer) == init && Last(longer) == last + [c];
    if init != [] {
      assert Join(init) + [SPACE] + (last + [c]) == Join(init) + [SPACE] + last + [c];
    }
  }

  // ----- library functions on text -----

  function Lower(al: Alphabet, s: Text): (r: Text)
    ensures |r| == |s| && forall i :: 0 <= i < |s| ==> r[i] == al.ToLower(s[i])
  {
    seq(|s|, i requires 0 <= i < |s| => al.ToLower(s[i]))
  }

  /** strings.TrimSpace */
  function Trim(al: Alphabet, s: Text): Text
    decreases |s|
  {
    if s == [] then []
    else if s[0] in al.spaces then Trim(al, s[1..])
    else if Last(s) in al.spaces then Trim(al, Front(s))
    else s
  }

  /** strings.Fields */
  function Fields(al: Alphabet, s: Text): seq<Text> {
    Words(s, al.printed)
  }

  lemma LowerShape(al: Alphabet, s: Text)
    requires s != []
    ensures Lower(al, s) == [al.ToLower(s[0])] + Lower(al, s[1..])
    ensures Lower(al, s) == Lower(al, Front(s)) + [al.ToLower(Last(s))]
  {
  }

  lemma {:induction false} TrimKeepsWords(al: Alphabet, s: Text)
    requires Regular(al)
    ensures Words(Lower(al, Trim(al, s)), al.word) == Words(Lower(al, s), al.word)
    decreases |s|
  {
    if s != [] {
      LowerShape(al, s);
      if s[0] in al.spaces {
        assert !al.word.Has(al.ToLower(s[0])) by { assert !al.word.Has(s[0]); }
        TrimKeepsWords(al, s[1..]);
        WordsSkipFirst(al.ToLower(s[0]), Lower(al, s[1..]), al.word);
      } else if Last(s) in al.spaces {
        TrimKeepsWords(al, Front(s));
        assert !al.word.Has(al.ToLower(Last(s))) by { assert !al.word.Has(Last(s)); }
        assert Front(Lower(al, s)) == Lower(al, Front(s)) && Last(Lower(al, s)) == al.ToLower(Last(s));
      }
    }
  }

  /** What TrimSpace removes is white space at both ends, all of it. */
  lemma {:induction false} TrimMeans(al: Alphabet, s: Text) returns (before: Text, after: Text)
    ensures s == before + Trim(al, s) + after
    ensures (forall i :: 0 <= i < |before| ==> before[i] in al.spaces) && (forall i :: 0 <= i < |after| ==> after[i] in al.spaces)
    ensures Trim(al, s) == [] || (Trim(al, s)[0] !in al.spaces && Last(Trim(al, s)) !in al.spaces)
    decreases |s|
  {
    before, after := [], [];
    if s != [] && s[0] in al.spaces {
      var outer;
      outer, after := TrimMeans(al, s[1..]);
      before := [s[0]] + outer;
      Regroup([s[0]], outer, Trim(al, s[1..]), after);
      assert s == [s[0]] + s[1..];
    } else if s != [] && Last(s) in al.spaces {
      var inner;
      before, inner := TrimMeans(al, Front(s));
      after := inner + [Last(s)];
      Regroup(before + Trim(al, Front(s)), inner, [Last(s)], []);
      assert s == Front(s) + [Last(s)];
    }
  }

  lemma Regroup(a: Text, b: Text, c: Text, d: Text)
    ensures a + (b + c + d) == (a + b) + c + d && a + b + c == a + (b + c)
  {
  }

  lemma TrimOne(al: Alphabet, s: Text)
    requires s != [] && s[0] !in al.spaces && Last(s) !in al.spaces && SPACE in al.spaces
    ensures Trim(al, s + [SPACE]) == s && Trim(al, s) == s
  {
    assert Front(s + [SPACE]) == s && (s + [SPACE])[0] == s[0];
  }

  // ----- normalisation -----

  function Tokens(al: Alphabet, name: Text): (words: seq<Text>)
    ensures ProperWords(words, al.word)
  {
    Words(Lower(al, name), al.word)
  }

  /** A separator has followed the last word. */
  predicate Spaced(s: Text, word: Class) {
    s != [] && Words(s, word) != [] && !word.Has(Last(s))
  }

  /** The builder after some characters: the words so far, and a space if a separator followed them. */
  function Builder(s: Text, word: Class): Text {
    Join(Words(s, word)) + if Spaced(s, word) then [SPACE] else []
  }

  lemma BuilderStep(s: Text, c: Rune, word: Class)
    ensures var b := Builder(s, word);
      Builder(s + [c], word) == if word.Has(c) then b + [c] else if !Spaced(s, word) && b != [] then b + [SPACE] else b
    ensures Spaced(s + [c], word) == (!word.Has(c) && (Spaced(s, word) || Builder(s, word) != []))
  {
    var words := Words(s, word);
    assert Front(s + [c]) == s && Last(s + [c]) == c;
    JoinClasses(words, word);
    JoinGrows(words, c);
  }

  /** Lower-case words joined by single spaces: what is left of a name. */
  method NormalizePersonName(al: Alphabet, name: Text) returns (normal: Text)
    requires Regular(al)
    ensures normal == Join(Tokens(al, name))
  {
    var value := Lower(al, Trim(al, name));
    var builder: Text := [];
    var space := false;
    for i := 0 to |value|
      invariant builder == Builder(value[..i], al.word) && space == Spaced(value[..i], al.word)
    {
      BuilderStep(value[..i], value[i], al.word);
      assert value[..i + 1] == value[..i] + [value[i]];
      if al.word.Has(value[i]) {
        builder := builder + [value[i]];
        space := false;
      } else if !space && |builder| > 0 {
        builder := builder + [SPACE];
        space := true;
      }
    }
    assert value[..|value|] == value;
    normal := Trim(al, builder);
    BuilderEnd(al, name);
  }

  lemma BuilderEnd(al: Alphabet, name: Text)
    requires Regular(al)
    ensures Trim(al, Builder(Lower(al, Trim(al, name)), al.word)) == Join(Tokens(al, name))
  {
    TrimKeepsWords(al, name);
    var words := Tokens(al, name);
    JoinClasses(words, al.word);
    if words != [] {
      var text := Join(words);
      assert text[0] !in al.spaces && Last(text) !in al.spaces by {
        assert al.word.Has(text[0]) && al.word.Has(Last(text));
      }
      TrimOne(al, text);
    }
  }

  /** Normalised names are a normal form: normalising again changes nothing, and two names have the same normal form
      exactly when they have the same words. */
  lemma {:induction false} NormalForm(al: Alphabet, name: Text, other: Text)
    requires Regular(al)
    ensures Tokens(al, Join(Tokens(al, name))) == Tokens(al, name)
    ensures Join(Tokens(al, name)) == Join(Tokens(al, other)) <==> Tokens(al, name) == Tokens(al, other)
    ensures Fields(al, Join(Tokens(al, name))) == Tokens(al, name)
    ensures Join(Tokens(al, name)) == [] <==> Tokens(al, name) == []
  {
    var words := Tokens(al, name);
    var normal := Join(words);
    assert !al.word.Has(SPACE);
    WordsOfJoin(words, al.word);
    WordsOfJoin(Tokens(al, other), al.word);
    JoinClasses(words, al.word);
    LowerAlready(al, name);
    assert Lower(al, normal) == normal;
    JoinFrom(words, In(al.words + {SPACE}));
    WordsAgree(normal, al.word, al.printed);
  }

  lemma LowerAlready(al: Alphabet, name: Text)
    requires Regular(al)
    ensures Lower(al, Join(Tokens(al, name))) == Join(Tokens(al, name))
  {
    var fixed := Outside(set c | c in al.lowerCase && al.lowerCase[c] != c);
    forall i | 0 <= i < |name| ensures fixed.Has(Lower(al, name)[i]) {
      assert al.ToLower(al.ToLower(name[i])) == al.ToLower(name[i]);
    }
    WordsFrom(Lower(al, name), al.word, fixed);
    JoinFrom(Tokens(al, name), fixed);
  }

  /** Words are made of the characters of the text. */
  lemma {:induction false} WordsFrom(s: Text, word: Class, p: Class)
    requires AllOf(s, p)
    ensures forall i :: 0 <= i < |Words(s, word)| ==> AllOf(Words(s, word)[i], p)
    decreases |s|
  {
    if s != [] {
      WordsFrom(Front(s), word, p);
    }
  }

  lemma {:induction false} JoinFrom(words: seq<Text>, p: Class)
    requires p.Has(SPACE) && forall i :: 0 <= i < |words| ==> AllOf(words[i], p)
    ensures AllOf(Join(words), p)
    decreases |words|
  {
    if |words| > 1 {
      JoinFrom(Front(words), p);
    }
  }

  /** The three rules that say what the words of a name are: letters and digits alone are one word, in lower case; any
      other character separates; and nothing has no words. */
  lemma {:induction false} TokensAreWords(al: Alphabet, s: Text, c: Rune, t: Text)
    requires Regular(al)
    ensures Tokens(al, []) == []
    ensures s != [] && (forall i :: 0 <= i < |s| ==> s[i] in al.words) ==> Tokens(al, s) == [Lower(al, s)]
    ensures c !in al.words ==> Tokens(al, s + [c] + t) == Tokens(al, s) + Tokens(al, t)
  {
    if s != [] && (forall i :: 0 <= i < |s| ==> s[i] in al.words) {
      assert forall i :: 0 <= i < |s| ==> al.ToLower(s[i]) in al.words;
      WordsOfWord(Lower(al, s), al.word);
    }
    if c !in al.words {
      assert Lower(al, s + [c] + t) == Lower(al, s) + [al.ToLower(c)] + Lower(al, t);
      WordsSplit(Lower(al, s), al.ToLower(c), Lower(al, t), al.word);
    }
  }

  /** Words do not reach across a separator. */
  lemma {:induction false} WordsSplit(s: Text, c: Rune, t: Text, word: Class)
    requires !word.Has(c)
    ensures Words(s + [c] + t, word) == Words(s, word) + Words(t, word)
    decreases |t|
  {
    if t == [] {
      SeparatorKeepsWords(s, c, word);
      assert s + [c] + t == s + [c];
    } else {
      hide Words;
      var head, d := s + [c] + Front(t), Last(t);
      SplitShape(s, c, t);
      WordsSplit(s, c, Front(t), word);
      WordsNext(head, d, word);
      WordsNext(Front(t), d, word);
      ExtendBoth(Words(s, word), Words(Front(t), word), d, |t| == 1 || !word.Has(Last(Front(t))));
    }
  }

  lemma SplitShape(s: Text, c: Rune, t: Text)
    requires t != []
    ensures var head := s + [c] + Front(t);
      && s + [c] + t == head + [Last(t)] && Front(t) + [Last(t)] == t
      && head != [] && Last(head) == if |t| == 1 then c else Last(Front(t))
  {
  }

  /** A letter starts a word of its own, or goes to the last word. */
  function Extend(words: seq<Text>, c: Rune, starts: bool): seq<Text> {
    if starts || words == [] then words + [[c]] else Front(words) + [Last(words) + [c]]
  }

  lemma ExtendBoth(x: seq<Text>, y: seq<Text>, c: Rune, starts: bool)
    requires starts || y != []
    ensures x + Extend(y, c, starts) == Extend(x + y, c, starts)
  {
    if !starts {
      assert Front(x + y) == x + Front(y) && Last(x + y) == Last(y);
    }
  }

  /** One more character. */
  lemma WordsNext(s: Text, c: Rune, word: Class)
    ensures s != [] && word.Has(Last(s)) ==> Words(s, word) != []
    ensures Words(s + [c], word)
         == if word.Has(c) then Extend(Words(s, word), c, s == [] || !word.Has(Last(s))) else Words(s, word)
  {
    assert Front(s + [c]) == s && Last(s + [c]) == c;
  }

  // ----- the same words in another order -----

  function CountOf(counts: map<Text, int>, token: Text): int {
    if token in counts then counts[token] else 0
  }

  lemma PrefixCount(words: seq<Text>, i: nat)
    requires i < |words|
    ensures multiset(words[..i + 1]) == multiset(words[..i]) + multiset{words[i]}
  {
    assert words[..i + 1] == words[..i] + [words[i]];
  }

  /** How much more often each token occurs in `a` than in `b`. */
  method CountDifference(a: seq<Text>, b: seq<Text>) returns (counts: map<Text, int>)
    ensures forall t :: CountOf(counts, t) + multiset(b)[t] == multiset(a)[t]
  {
    counts := map[];
    for i := 0 to |a|
      invariant forall t :: CountOf(counts, t) == multiset(a[..i])[t]
    {
      PrefixCount(a, i);
      counts := counts[a[i] := CountOf(counts, a[i]) + 1];
    }
    assert a[..|a|] == a;
    for i := 0 to |b|
      invariant forall t :: CountOf(counts, t) + multiset(b[..i])[t] == multiset(a)[t]
    {
      PrefixCount(b, i);
      counts := counts[b[i] := CountOf(counts, b[i]) - 1];
    }
    assert b[..|b|] == b;
  }

  /** At least two words on both sides, the same words as often, in any order. */
  method SameNameTokens(al: Alphabet, a: Text, b: Text) returns (same: bool)
    ensures same <==> |Fields(al, a)| >= 2 && multiset(Fields(al, a)) == multiset(Fields(al, b))
  {
    var aTokens, bTokens := Fields(al, a), Fields(al, b);
    if |aTokens| != |bTokens| || |aTokens| < 2 {
      assert |multiset(aTokens)| == |aTokens| && |multiset(bTokens)| == |bTokens|;
      return false;
    }
    var counts := CountDifference(aTokens, bTokens);
    var rest := counts.Keys;
    while rest != {}
      invariant rest <= counts.Keys
      invariant forall t :: t in counts && t !in rest ==> counts[t] == 0
      decreases |rest|
    {
      var token :| token in rest;
      rest := rest - {token};
      if counts[token] != 0 {
        assert CountOf(counts, token) != 0;
        return false;
      }
    }
    assert forall t :: CountOf(counts, t) == 0;
    assert multiset(aTokens) == multiset(bTokens);
    same := true;
  }

  // ----- the verdict -----

  function Max(a: int, b: int): int {
    if a < b then b else a
  }

  /** Two names are close: few edits apart, or the same words in another order. */
  predicate Close(p: seq<Text>, a: seq<Text>) {
    || Lev(Join(p), Join(a)) <= Max(2, |Join(a)| / 5)
    || (|p| >= 2 && multiset(p) == multiset(a))
  }

  function Verdict(p: seq<Text>, a: seq<Text>, available: bool): Vop {
    if !available || p == [] then Other
    else if p == a then Match
    else if Close(p, a) then CloseMatch
    else NoMatch
  }

  /** Some script of single edits rewrites one name into the other, and has at most two edits or at most a fifth of the
      account holder's name. */
  predicate FewEdits(p: Text, a: Text, script: seq<Edit>) {
    Rewrites(script, p, a) && (|script| <= 2 || 5 * |script| <= |a|)
  }

  /** What each verdict means, in terms of the words of both names and of edit scripts. */
  lemma {:induction false} VerdictMeans(p: seq<Text>, a: seq<Text>, available: bool)
    ensures Verdict(p, a, available) == Other <==> !available || p == []
    ensures Verdict(p, a, available) == Match <==> available && p != [] && p == a
    ensures Verdict(p, a, available) == CloseMatch <==>
              && available && p != [] && p != a
              && ((exists script :: FewEdits(Join(p), Join(a), script)) || (|p| >= 2 && multiset(p) == multiset(a)))
    ensures Verdict(p, a, available) == NoMatch <==>
              && available && p != [] && p != a
              && (forall script :: !FewEdits(Join(p), Join(a), script)) && (|p| < 2 || multiset(p) != multiset(a))
  {
    hide Join, Lev;
    LevIsShortest(Join(p), Join(a));
    if script :| FewEdits(Join(p), Join(a), script) {
      assert Lev(Join(p), Join(a)) <= |script|;
    }
    if Lev(Join(p), Join(a)) <= Max(2, |Join(a)| / 5) {
      var script :| Rewrites(script, Join(p), Join(a)) && |script| == Lev(Join(p), Join(a));
      assert FewEdits(Join(p), Join(a), script);
    }
  }

  /** The verdict depends on the words of both names only: a match is the same words; a close match few edits, or at least
      two words in another order; no verdict is given without words or without an account holder. The account holder's
      name is disclosed on a close match and on nothing else. */
  method EvaluateVoP(al: Alphabet, provided: Text, actual: Text, available: bool)
    returns (verdict: Vop, suggestion: Option<Text>)
    requires Regular(al)
    ensures verdict == Verdict(Tokens(al, provided), Tokens(al, actual), available)
    ensures var p, a := Tokens(al, provided), Tokens(al, actual);
      && (verdict == Other <==> !available || p == [])
      && (verdict == Match <==> available && p != [] && p == a)
      && (verdict == CloseMatch <==>
            && available && p != [] && p != a
            && ((exists script :: FewEdits(Join(p), Join(a), script)) || (|p| >= 2 && multiset(p) == multiset(a))))
    ensures suggestion == if verdict.CloseMatch? then Some(Trim(al, actual)) else None
  {
    VerdictMeans(Tokens(al, provided), Tokens(al, actual), available);
    hide FewEdits;
    var p := NormalizePersonName(al, provided);
    NormalForm(al, provided, actual);
    NormalForm(al, actual, provided);
    if !available || p == [] {
      return Other, None;
    }
    var a := NormalizePersonName(al, actual);
    if p == a {
      return Match, None;
    }
    var distance := Levenshtein(p, a);
    var threshold := Max(2, |a| / 5);
    var sameTokens := SameNameTokens(al, p, a);
    if distance <= threshold || sameTokens {
      return CloseMatch, Some(Trim(al, actual));
    }
    return NoMatch, None;
  }

  /** A name with its words in another order, or reachable by two single edits, is never refused; and a refused name
      needs more edits than a fifth of the account holder's name, by every script. */
  lemma {:induction false} RefusedNamesAreFarApart(p: seq<Text>, a: seq<Text>, script: seq<Edit>)
    requires p != []
    requires Rewrites(script, Join(p), Join(a))
    ensures Verdict(p, a, true).NoMatch? ==> |script| > 2 && |script| > |Join(a)| / 5 && (|p| < 2 || multiset(p) != multiset(a))
    ensures |script| <= 2 ==> Verdict(p, a, true).Match? || Verdict(p, a, true).CloseMatch?
  {
    NoShorterScript(script, Join(p), Join(a));
  }
}
