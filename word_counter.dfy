/**
 * The word-frequency counter: `countWordFrequency` lowercases the text,
 * extracts the maximal runs of letters (the regular expression `\p{L}+`
 * with the global and unicode flags) and tallies each run in a dictionary.
 *
 * Which characters are letters and how a character is lowercased are
 * Unicode tables this model does not reproduce; every member therefore
 * takes them as parameters, `isLetter` and `lower`, and every property
 * holds whatever they are.
 */
module WordCounter {
  import opened Wrappers

  // ---------------------------------------------------------------------
  // Lowercasing and tokenization
  // ---------------------------------------------------------------------

  /** `text.toLowerCase()`, one character at a time. */
  function Lowercase(lower: char -> char, text: string): (r: string)
    ensures |r| == |text|
    ensures forall i :: 0 <= i < |text| ==> r[i] == lower(text[i])
  {
    seq(|text|, i requires 0 <= i < |text| => lower(text[i]))
  }

  /** A key the counter may produce: a non-empty run made only of letters. */
  predicate IsWord(isLetter: char -> bool, w: string) {
    |w| > 0 && forall k :: 0 <= k < |w| ==> isLetter(w[k])
  }

  /**
   * `s[a..b]` is a maximal run of letters: all of it is letters and it is
   * neither preceded nor followed by a letter.
   */
  ghost predicate MaximalRun(isLetter: char -> bool, s: string, a: int, b: int) {
    0 <= a < b <= |s| &&
    (forall k :: a <= k < b ==> isLetter(s[k])) &&
    (a == 0 || !isLetter(s[a - 1])) &&
    (b == |s| || !isLetter(s[b]))
  }

  /** The end of the run of letters that starts at `i` (`i` itself when `s[i]` is no letter). */
  function RunEnd(isLetter: char -> bool, s: string, i: nat): (j: nat)
    requires i <= |s|
    ensures i <= j <= |s|
    ensures forall k :: i <= k < j ==> isLetter(s[k])
    ensures j == |s| || !isLetter(s[j])
    decreases |s| - i
  {
    if i == |s| || !isLetter(s[i]) then i else RunEnd(isLetter, s, i + 1)
  }

  /** The runs of letters that a left-to-right scan of `s` finds from position `i` on. */
  function TokensFrom(isLetter: char -> bool, s: string, i: nat): (ts: seq<string>)
    requires i <= |s|
    ensures forall t :: t in ts ==> IsWord(isLetter, t)
    decreases |s| - i
  {
    if i == |s| then []
    else if !isLetter(s[i]) then TokensFrom(isLetter, s, i + 1)
    else
      var j := RunEnd(isLetter, s, i);
      [s[i..j]] + TokensFrom(isLetter, s, j)
  }

  /** `s.match(/\p{L}+/gu)`, with the `null` of a text without letters read as no tokens. */
  function Tokens(isLetter: char -> bool, s: string): seq<string> {
    TokensFrom(isLetter, s, 0)
  }

  /**
   * The tokens of the lowercased text (`words` in the source): all words,
   * and none at all exactly when no character lowercases to a letter.
   */
  function Words(isLetter: char -> bool, lower: char -> char, text: string): (ws: seq<string>)
    ensures forall t :: t in ws ==> IsWord(isLetter, t)
    ensures ws == [] <==> forall i :: 0 <= i < |text| ==> !isLetter(lower(text[i]))
  {
    TokensFromEmpty(isLetter, Lowercase(lower, text), 0);
    Tokens(isLetter, Lowercase(lower, text))
  }

  // ---------------------------------------------------------------------
  // The tally
  // ---------------------------------------------------------------------

  /** `frequency[word] || 0`: the count stored for `w`, or 0 when there is none. */
  function Lookup(m: map<string, int>, w: string): int {
    if w in m then m[w] else 0
  }

  /** The table the tally must produce: each token mapped to its number of occurrences. */
  function Frequencies(words: seq<string>): (m: map<string, int>)
    ensures forall w :: w in m <==> w in words
    ensures forall w :: w in m ==> m[w] >= 1
  {
    map w | w in words :: multiset(words)[w]
  }

  /** The result of `countWordFrequency(text)`, as a function. */
  function WordFrequency(isLetter: char -> bool, lower: char -> char, text: string): map<string, int> {
    Frequencies(Words(isLetter, lower, text))
  }

  /**
   * `countWordFrequency`: tokenize, then tally each token in a dictionary
   * that the loop updates in place.
   */
  method CountWordFrequency(isLetter: char -> bool, lower: char -> char, text: string)
    returns (frequency: map<string, int>)
    ensures forall w :: w in frequency <==> w in Words(isLetter, lower, text)
    ensures forall w :: w in frequency ==> frequency[w] == multiset(Words(isLetter, lower, text))[w]
    ensures frequency == WordFrequency(isLetter, lower, text)
  {
    var words := Words(isLetter, lower, text);
    frequency := map[];
    for k := 0 to |words|
      invariant forall w :: w in frequency <==> w in words[..k]
      invariant forall w :: w in frequency ==> frequency[w] == multiset(words[..k])[w]
    {
      var word := words[k];
      assert words[..k + 1] == words[..k] + [word];
      frequency := frequency[word := Lookup(frequency, word) + 1];
    }
    assert words[..|words|] == words;
  }

  // ---------------------------------------------------------------------
  // Tokens are exactly the maximal runs of letters
  // ---------------------------------------------------------------------

  /** A position that satisfies RunEnd's contract is RunEnd. */
  lemma {:induction false} RunEndUnique(isLetter: char -> bool, s: string, i: nat, j: nat)
    requires i <= j <= |s|
    requires forall k :: i <= k < j ==> isLetter(s[k])
    requires j == |s| || !isLetter(s[j])
    ensures RunEnd(isLetter, s, i) == j
    decreases j - i
  {
    if i < j {
      RunEndUnique(isLetter, s, i + 1, j);
    }
  }

  /** `i` does not fall strictly inside a run of letters. */
  ghost predicate AtBoundary(isLetter: char -> bool, s: string, i: nat)
    requires i <= |s|
  {
    i == 0 || i == |s| || !isLetter(s[i - 1]) || !isLetter(s[i])
  }

  /** Every token found from a boundary `i` on is a maximal run starting at or after `i`. */
  lemma {:induction false} TokensFromSound(isLetter: char -> bool, s: string, i: nat, t: string)
    requires i <= |s|
    requires AtBoundary(isLetter, s, i)
    requires t in TokensFrom(isLetter, s, i)
    ensures exists a, b :: i <= a && MaximalRun(isLetter, s, a, b) && t == s[a..b]
    decreases |s| - i
  {
    assert i < |s|;
    if !isLetter(s[i]) {
      TokensFromSound(isLetter, s, i + 1, t);
    } else {
      var j := RunEnd(isLetter, s, i);
      if t == s[i..j] {
        assert MaximalRun(isLetter, s, i, j);
      } else {
        TokensFromSound(isLetter, s, j, t);
      }
    }
  }

  /** Every maximal run that starts at or after `i` is found by the scan from `i`. */
  lemma {:induction false} TokensFromComplete(isLetter: char -> bool, s: string, i: nat, a: int, b: int)
    requires i <= a
    requires MaximalRun(isLetter, s, a, b)
    ensures s[a..b] in TokensFrom(isLetter, s, i)
    decreases |s| - i
  {
    if !isLetter(s[i]) {
      TokensFromComplete(isLetter, s, i + 1, a, b);
    } else {
      var j := RunEnd(isLetter, s, i);
      if i == a {
        RunEndUnique(isLetter, s, a, b);
      } else {
        assert !isLetter(s[a - 1]);
        assert j <= a - 1;
        TokensFromComplete(isLetter, s, j, a, b);
      }
    }
  }

  /**
   * The keys of the result are exactly the maximal runs of letters of the
   * lowercased text: each key is a non-empty run of letters that is neither
   * preceded nor followed by a letter, and every such run is a key.
   */
  lemma WordFrequencyKeys(isLetter: char -> bool, lower: char -> char, text: string, w: string)
    ensures w in WordFrequency(isLetter, lower, text) ==> IsWord(isLetter, w)
    ensures w in WordFrequency(isLetter, lower, text) <==>
      exists a, b :: MaximalRun(isLetter, Lowercase(lower, text), a, b) && w == Lowercase(lower, text)[a..b]
  {
    var s := Lowercase(lower, text);
    if w in WordFrequency(isLetter, lower, text) {
      TokensFromSound(isLetter, s, 0, w);
    }
    if exists a, b :: MaximalRun(isLetter, s, a, b) && w == s[a..b] {
      var a, b :| MaximalRun(isLetter, s, a, b) && w == s[a..b];
      TokensFromComplete(isLetter, s, 0, a, b);
    }
  }

  /** The scan finds nothing exactly when no letter is left from `i` on. */
  lemma {:induction false} TokensFromEmpty(isLetter: char -> bool, s: string, i: nat)
    requires i <= |s|
    ensures TokensFrom(isLetter, s, i) == [] <==> forall k :: i <= k < |s| ==> !isLetter(s[k])
    decreases |s| - i
  {
    if i < |s| && !isLetter(s[i]) {
      TokensFromEmpty(isLetter, s, i + 1);
    }
  }

  /**
   * A text with no letter after lowercasing (empty, blank, digits or
   * punctuation only) gives the empty table, and only such a text does.
   */
  lemma NoLettersEmptyTable(isLetter: char -> bool, lower: char -> char, text: string)
    ensures WordFrequency(isLetter, lower, text) == map[] <==>
      forall i :: 0 <= i < |text| ==> !isLetter(lower(text[i]))
  {
    var s := Lowercase(lower, text);
    TokensFromEmpty(isLetter, s, 0);
    var ws := Words(isLetter, lower, text);
    if ws != [] {
      assert ws[0] in WordFrequency(isLetter, lower, text);
    }
  }

  /** Texts that lowercase alike are counted alike ("Cat cat CAT" and "cat cat cat"). */
  lemma CaseInsensitive(isLetter: char -> bool, lower: char -> char, t1: string, t2: string)
    requires |t1| == |t2|
    requires forall i :: 0 <= i < |t1| ==> lower(t1[i]) == lower(t2[i])
    ensures WordFrequency(isLetter, lower, t1) == WordFrequency(isLetter, lower, t2)
  {
    assert Lowercase(lower, t1) == Lowercase(lower, t2);
  }

  // ---------------------------------------------------------------------
  // Counts add up
  // ---------------------------------------------------------------------

  /** The sum of the values of a table. */
  ghost function Total(m: map<string, int>): int
    decreases |m|
  {
    if m == map[] then 0
    else
      var w :| w in m;
      m[w] + Total(m - {w})
  }

  /** Total does not depend on which key it takes out first. */
  lemma {:induction false} TotalRemove(m: map<string, int>, k: string)
    requires k in m
    ensures Total(m) == m[k] + Total(m - {k})
    decreases |m|
  {
    var w :| w in m && Total(m) == m[w] + Total(m - {w});
    if w != k {
      var mw := m - {w};
      var mk := m - {k};
      assert k in mw && w in mk;
      TotalRemove(mw, k);
      TotalRemove(mk, w);
      assert mw - {k} == mk - {w};
    }
  }

  /** One more occurrence of `w` adds one to the total. */
  lemma TotalBump(m: map<string, int>, w: string)
    ensures Total(m[w := Lookup(m, w) + 1]) == Total(m) + 1
  {
    var m' := m[w := Lookup(m, w) + 1];
    TotalRemove(m', w);
    if w in m {
      TotalRemove(m, w);
      assert m' - {w} == m - {w};
    } else {
      assert m' - {w} == m;
    }
  }

  /** Appending a word to the token sequence bumps its entry by one. */
  lemma FrequenciesSnoc(words: seq<string>, w: string)
    ensures Frequencies(words + [w]) == Frequencies(words)[w := Lookup(Frequencies(words), w) + 1]
  {
    var l := Frequencies(words + [w]);
    var r := Frequencies(words)[w := Lookup(Frequencies(words), w) + 1];
    assert multiset(words + [w]) == multiset(words) + multiset{w};
    forall v | v in l
      ensures v in r && l[v] == r[v]
    {
      if v != w {
        assert v in words;
      }
    }
    assert l.Keys == r.Keys;
  }

  /** One more token raises the sum of the table's values by one. */
  lemma TotalSnoc(words: seq<string>, w: string)
    ensures Total(Frequencies(words + [w])) == Total(Frequencies(words)) + 1
  {
    FrequenciesSnoc(words, w);
    TotalBump(Frequencies(words), w);
  }

  /** The values of the table sum to the number of tokens. */
  lemma {:induction false} TotalFrequencies(words: seq<string>)
    ensures Total(Frequencies(words)) == |words|
    decreases |words|
  {
    if words == [] {
      assert Frequencies(words) == map[];
    } else {
      var init, last := words[..|words| - 1], words[|words| - 1];
      assert words == init + [last];
      TotalFrequencies(init);
      TotalSnoc(init, last);
    }
  }

  /** The values of `countWordFrequency(text)` sum to the number of tokens. */
  lemma WordFrequencyTotal(isLetter: char -> bool, lower: char -> char, text: string)
    ensures Total(WordFrequency(isLetter, lower, text)) == |Words(isLetter, lower, text)|
  {
    TotalFrequencies(Words(isLetter, lower, text));
  }

  // ---------------------------------------------------------------------
  // Additivity over a separator
  // ---------------------------------------------------------------------

  /** The entrywise sum of two tables; a word missing from one counts 0 there. */
  function PointwiseSum(m1: map<string, int>, m2: map<string, int>): map<string, int> {
    map w | w in m1.Keys + m2.Keys :: Lookup(m1, w) + Lookup(m2, w)
  }

  /** The scan from `i` sees only what lies from `i` on, so it may drop a prefix. */
  lemma {:induction false} TokensFromSuffix(isLetter: char -> bool, s: string, n: nat, i: nat)
    requires n <= i <= |s|
    ensures TokensFrom(isLetter, s, i) == TokensFrom(isLetter, s[n..], i - n)
    decreases |s| - i
  {
    if i < |s| {
      if !isLetter(s[i]) {
        TokensFromSuffix(isLetter, s, n, i + 1);
      } else {
        var j := RunEnd(isLetter, s, i);
        RunEndUnique(isLetter, s[n..], i - n, j - n);
        assert s[n..][i - n..j - n] == s[i..j];
        TokensFromSuffix(isLetter, s, n, j);
      }
    }
  }

  /** A non-letter at `m` splits the scan into the part before it and the part after it. */
  lemma {:induction false} TokensFromSplit(isLetter: char -> bool, s: string, i: nat, m: nat)
    requires i <= m < |s|
    requires !isLetter(s[m])
    ensures TokensFrom(isLetter, s, i) == TokensFrom(isLetter, s[..m], i) + TokensFrom(isLetter, s, m + 1)
    decreases m - i
  {
    if i < m {
      if !isLetter(s[i]) {
        TokensFromSplit(isLetter, s, i + 1, m);
      } else {
        var j := RunEnd(isLetter, s, i);
        assert j <= m;
        RunEndUnique(isLetter, s[..m], i, j);
        assert s[..m][i..j] == s[i..j];
        TokensFromSplit(isLetter, s, j, m);
      }
    }
  }

  /** A word on its own is scanned as exactly that one token. */
  lemma TokensOfWord(isLetter: char -> bool, w: string)
    requires IsWord(isLetter, w)
    ensures Tokens(isLetter, w) == [w]
  {
    RunEndUnique(isLetter, w, 0, |w|);
    assert isLetter(w[0]);
    assert TokensFrom(isLetter, w, |w|) == [];
    assert w[0..|w|] == w;
  }

  /**
   * A non-letter between two texts keeps their tokens apart: the tokens of
   * the whole are those of the first text followed by those of the second,
   * in order and with repetitions.
   */
  lemma TokensSep(isLetter: char -> bool, s1: string, sep: char, s2: string)
    requires !isLetter(sep)
    ensures Tokens(isLetter, s1 + [sep] + s2) == Tokens(isLetter, s1) + Tokens(isLetter, s2)
  {
    var s := s1 + [sep] + s2;
    var m := |s1|;
    assert s[..m] == s1;
    assert s[m + 1..] == s2;
    TokensFromSplit(isLetter, s, 0, m);
    TokensFromSuffix(isLetter, s, m + 1, m + 1);
  }

  /** The same split on the source's `words`, for a separator that lowercases to a non-letter. */
  lemma WordsSep(isLetter: char -> bool, lower: char -> char, s1: string, sep: char, s2: string)
    requires !isLetter(lower(sep))
    ensures Words(isLetter, lower, s1 + [sep] + s2) == Words(isLetter, lower, s1) + Words(isLetter, lower, s2)
  {
    assert Lowercase(lower, s1 + [sep] + s2) == Lowercase(lower, s1) + [lower(sep)] + Lowercase(lower, s2);
    TokensSep(isLetter, Lowercase(lower, s1), lower(sep), Lowercase(lower, s2));
  }

  /** Counting `s1 + [sep] + s2`, with `sep` no letter, adds the counts of `s1` and `s2`. */
  lemma Additivity(isLetter: char -> bool, lower: char -> char, s1: string, sep: char, s2: string)
    requires !isLetter(lower(sep))
    ensures WordFrequency(isLetter, lower, s1 + [sep] + s2) ==
      PointwiseSum(WordFrequency(isLetter, lower, s1), WordFrequency(isLetter, lower, s2))
  {
    WordsSep(isLetter, lower, s1, sep, s2);
    var w1, w2 := Words(isLetter, lower, s1), Words(isLetter, lower, s2);
    assert multiset(w1 + w2) == multiset(w1) + multiset(w2);
    var l := Frequencies(w1 + w2);
    var r := PointwiseSum(Frequencies(w1), Frequencies(w2));
    forall v | v in l
      ensures v in r && l[v] == r[v]
    {
    }
    assert l.Keys == r.Keys;
  }

  // ---------------------------------------------------------------------
  // Worked examples over ASCII letters
  // ---------------------------------------------------------------------

  /** The ASCII letters, a stand-in for `\p{L}` in the examples below. */
  predicate AsciiIsLetter(c: char) {
    ('a' <= c <= 'z') || ('A' <= c <= 'Z')
  }

  /** ASCII lowercasing, a stand-in for `toLowerCase` in the examples below. */
  function AsciiLower(c: char): char {
    if 'A' <= c <= 'Z' then (c as int + 32) as char else c
  }

  /** The scan of "cat cat cat" finds three tokens. */
  lemma CatTokens()
    ensures Tokens(AsciiIsLetter, "cat cat cat") == ["cat", "cat", "cat"]
  {
    var s := "cat cat cat";
    RunEndUnique(AsciiIsLetter, s, 0, 3);
    RunEndUnique(AsciiIsLetter, s, 4, 7);
    RunEndUnique(AsciiIsLetter, s, 8, 11);
    assert TokensFrom(AsciiIsLetter, s, 11) == [];
    assert TokensFrom(AsciiIsLetter, s, 8) == [s[8..11]];
    assert TokensFrom(AsciiIsLetter, s, 7) == [s[8..11]];
    assert TokensFrom(AsciiIsLetter, s, 4) == [s[4..7], s[8..11]];
    assert TokensFrom(AsciiIsLetter, s, 3) == [s[4..7], s[8..11]];
    assert TokensFrom(AsciiIsLetter, s, 0) == [s[0..3], s[4..7], s[8..11]];
    assert s[0..3] == "cat" && s[4..7] == "cat" && s[8..11] == "cat";
  }

  /** "Cat cat CAT" counts as {cat: 3}. */
  lemma CatExample()
    ensures WordFrequency(AsciiIsLetter, AsciiLower, "Cat cat CAT") == map["cat" := 3]
  {
    assert Lowercase(AsciiLower, "Cat cat CAT") == "cat cat cat";
    CatTokens();
    assert Words(AsciiIsLetter, AsciiLower, "Cat cat CAT") == ["cat", "cat", "cat"];
    assert multiset(["cat", "cat", "cat"])["cat"] == 3;
  }

  /** The scan of "a, b. 123" finds "a" and "b" only. */
  lemma PunctuationTokens()
    ensures Tokens(AsciiIsLetter, "a, b. 123") == ["a", "b"]
  {
    var s := "a, b. 123";
    RunEndUnique(AsciiIsLetter, s, 0, 1);
    RunEndUnique(AsciiIsLetter, s, 3, 4);
    assert forall k :: 4 <= k < |s| ==> !AsciiIsLetter(s[k]);
    TokensFromEmpty(AsciiIsLetter, s, 4);
    assert TokensFrom(AsciiIsLetter, s, 3) == [s[3..4]];
    assert TokensFrom(AsciiIsLetter, s, 1) == [s[3..4]];
    assert TokensFrom(AsciiIsLetter, s, 0) == [s[0..1], s[3..4]];
    assert s[0..1] == "a" && s[3..4] == "b";
  }

  /** Punctuation and digits are neither tokens nor part of one: "a, b. 123" counts as {a: 1, b: 1}. */
  lemma PunctuationExample()
    ensures WordFrequency(AsciiIsLetter, AsciiLower, "a, b. 123") == map["a" := 1, "b" := 1]
  {
    assert Lowercase(AsciiLower, "a, b. 123") == "a, b. 123";
    PunctuationTokens();
    assert multiset(["a", "b"])["a"] == 1 && multiset(["a", "b"])["b"] == 1;
  }

  // ---------------------------------------------------------------------
  // The tally as written: `frequency` is a plain object `{}`
  // ---------------------------------------------------------------------

  /** A value read from, or stored in, a property of the object `frequency`. */
  datatype JsValue = Undefined | Number(n: int) | Text(s: string) | NativeFunction(name: string)

  /**
   * The properties of `Object.prototype` whose names are made of letters
   * only (section 20.1.3 of ECMA-262), each a built-in function, with the
   * name that function reports; `{}` inherits them all.
   */
  function PrototypeMember(w: string): Option<string> {
    if w == "constructor" then Some("Object")
    else if w in ["hasOwnProperty", "isPrototypeOf", "propertyIsEnumerable",
                  "toLocaleString", "toString", "valueOf"] then Some(w)
    else None
  }

  /** `frequency[w]`: an own property, else an inherited one, else `undefined`. */
  function Read(frequency: map<string, JsValue>, w: string): JsValue {
    if w in frequency then frequency[w]
    else match PrototypeMember(w)
      case Some(name) => NativeFunction(name)
      case None => Undefined
  }

  /**
   * `(v || 0) + 1`: a falsy `v` becomes 1, a number is incremented, and
   * anything else is converted to a string and has "1" appended.
   */
  function OrZeroPlusOne(v: JsValue): JsValue {
    match v
    case Undefined => Number(1)
    case Number(n) => Number(n + 1)
    case Text(s) => if s == "" then Number(1) else Text(s + "1")
    case NativeFunction(name) => Text("function " + name + "() { [native code] }" + "1")
  }

  /**
   * The source's loop over `words`, on a plain object: every word gets an
   * own property holding a value, and nothing else does.
   */
  function TallyAsWritten(words: seq<string>): (r: map<string, JsValue>)
    ensures forall w :: w in r <==> w in words
    ensures forall w :: w in r ==> r[w] != Undefined
    decreases |words|
  {
    if words == [] then map[]
    else
      assert words == words[..|words| - 1] + [words[|words| - 1]];
      var frequency := TallyAsWritten(words[..|words| - 1]);
      var word := words[|words| - 1];
      frequency[word := OrZeroPlusOne(Read(frequency, word))]
  }

  /** Away from the inherited names, the plain-object tally counts correctly. */
  lemma {:induction false} TallyAsWrittenAgrees(words: seq<string>)
    requires forall w :: w in words ==> PrototypeMember(w) == None
    ensures forall w :: w in TallyAsWritten(words) <==> w in Frequencies(words)
    ensures forall w :: w in TallyAsWritten(words) ==> TallyAsWritten(words)[w] == Number(Frequencies(words)[w])
    decreases |words|
  {
    if words != [] {
      var init, last := words[..|words| - 1], words[|words| - 1];
      assert words == init + [last];
      assert forall w :: w in init ==> w in words;
      TallyAsWrittenAgrees(init);
      FrequenciesSnoc(init, last);
    }
  }

  /** The scan of "constructor" finds that one word. */
  lemma ConstructorTokens()
    ensures Words(AsciiIsLetter, AsciiLower, "constructor") == ["constructor"]
  {
    var s := "constructor";
    assert Lowercase(AsciiLower, s) == s;
    RunEndUnique(AsciiIsLetter, s, 0, 11);
    assert TokensFrom(AsciiIsLetter, s, 11) == [];
    assert s[0..11] == s;
  }

  /**
   * The text "constructor" is tallied, as written, to the string
   * "function Object() { [native code] }1" instead of the count 1 that
   * CountWordFrequency gives.
   */
  lemma ConstructorMiscounted()
    ensures TallyAsWritten(Words(AsciiIsLetter, AsciiLower, "constructor")) ==
      map["constructor" := Text("function Object() { [native code] }1")]
    ensures WordFrequency(AsciiIsLetter, AsciiLower, "constructor") == map["constructor" := 1]
  {
    ConstructorTokens();
    var ws := ["constructor"];
    assert ws[..0] == [];
    assert TallyAsWritten(ws[..0]) == map[];
    assert Read(map[], "constructor") == NativeFunction("Object");
    assert "function " + "Object" + "() { [native code] }" + "1" == "function Object() { [native code] }1";
    assert TallyAsWritten(ws) == map["constructor" := Text("function Object() { [native code] }1")];
    assert multiset(ws)["constructor"] == 1;
  }
}
