/** What a comparison key keeps of a text: its words in lower case, one space between them. */
module KeyRules {
  import opened Common
  import opened Preparation
  import opened TextRules

  // ---------------------------------------------------------------- letters

  /** Latin and Cyrillic capitals become small letters, 32 code points on, and the letter Ё becomes ё; nothing else changes. */
  lemma LowerMeans(c: char)
    ensures var u := c as int;
            && (('A' <= c <= 'Z' || 0x410 <= u < 0x430) ==> Lower(c) as int == u + 32)
            && (u == 0x401 ==> Lower(c) as int == 0x451)
            && (!('A' <= c <= 'Z') && !(0x410 <= u < 0x430) && u != 0x401 ==> Lower(c) == c)
            && Lower(Lower(c)) == Lower(c)
            && (IsSpace(Lower(c)) <==> IsSpace(c))
  {
  }

  lemma {:induction false} LowerAllMeans(s: string)
    ensures |LowerAll(s)| == |s| && forall i :: 0 <= i < |s| ==> LowerAll(s)[i] == Lower(s[i])
  {
    if s != [] {
      LowerAllMeans(s[1..]);
    }
  }

  // ---------------------------------------------------------------- words

  predicate IsWord(w: string) { w != [] && forall i :: 0 <= i < |w| ==> !IsSpace(w[i]) }

  /** The words with one space between two of them. */
  function Joined(words: seq<string>): string {
    if words == [] then [] else if |words| == 1 then words[0] else words[0] + [' '] + Joined(words[1..])
  }

  /** The text is made of these words with white space between them and no white space at its ends. */
  ghost predicate MadeOf(s: string, words: seq<string>)
    decreases |words|
  {
    if words == [] then s == []
    else if |words| == 1 then IsWord(words[0]) && s == words[0]
    else exists gap, rest :: IsWord(words[0]) && gap != [] && AllSpace(gap) && s == words[0] + gap + rest && MadeOf(rest, words[1..])
  }

  lemma {:induction false} WordsOfWord(w: string, rest: string)
    requires forall i :: 0 <= i < |w| ==> !IsSpace(w[i])
    ensures Words(w + rest) == w + Words(rest)
    decreases |w|
  {
    if w == [] {
      assert w + rest == rest;
    } else {
      WordsOfWord(w[1..], rest);
      assert (w + rest)[1..] == w[1..] + rest;
      assert w + Words(rest) == [w[0]] + (w[1..] + Words(rest));
    }
  }

  lemma {:induction false} TrimLeftGap(gap: string, rest: string)
    requires AllSpace(gap) && (rest != [] ==> !IsSpace(rest[0]))
    ensures TrimLeft(gap + rest) == rest
    decreases |gap|
  {
    if gap == [] {
      assert gap + rest == rest;
    } else {
      assert (gap + rest)[1..] == gap[1..] + rest;
      TrimLeftGap(gap[1..], rest);
    }
  }

  lemma MadeOfStarts(s: string, words: seq<string>)
    requires MadeOf(s, words) && words != []
    ensures s != [] && !IsSpace(s[0])
  {
    assert s[0] == words[0][0];
  }

  /** Runs of white space inside a text become single spaces. */
  lemma {:induction false} WordsMean(s: string, words: seq<string>)
    requires MadeOf(s, words)
    ensures Words(s) == Joined(words)
    decreases |words|
  {
    if |words| == 1 {
      WordsOfWord(s, []);
      assert s + [] == s && Words([]) == [];
    } else if |words| > 1 {
      var gap, rest :| IsWord(words[0]) && gap != [] && AllSpace(gap) && s == words[0] + gap + rest && MadeOf(rest, words[1..]);
      assert s == words[0] + (gap + rest);
      WordsOfWord(words[0], gap + rest);
      MadeOfStarts(rest, words[1..]);
      TrimLeftGap(gap, rest);
      assert Words(gap + rest) == [' '] + Words(rest);
      WordsMean(rest, words[1..]);
    }
  }

  /** Every trimmed text is made of words. */
  lemma {:induction false} SplitsIntoWords(s: string) returns (words: seq<string>)
    requires s != [] ==> !IsSpace(s[0]) && !IsSpace(s[|s| - 1])
    ensures MadeOf(s, words)
    decreases |s|
  {
    if s == [] {
      words := [];
    } else {
      var n := 0;
      while n < |s| && !IsSpace(s[n])
        invariant 0 <= n <= |s| && forall i :: 0 <= i < n ==> !IsSpace(s[i])
      {
        n := n + 1;
      }
      if n == |s| {
        words := [s];
      } else {
        var m := n;
        while m < |s| && IsSpace(s[m])
          invariant n <= m <= |s| && forall i :: n <= i < m ==> IsSpace(s[i])
        {
          m := m + 1;
        }
        var more := SplitsIntoWords(s[m..]);
        words := [s[..n]] + more;
        assert s == s[..n] + s[n..m] + s[m..];
        assert more != [] && words[1..] == more;
        assert IsWord(s[..n]) && AllSpace(s[n..m]) && MadeOf(s[m..], words[1..]);
      }
    }
  }

  /** The key of a text is made of its words in lower case: texts that differ in case or spacing only have one key. */
  lemma KeyMeans(s: string) returns (words: seq<string>)
    ensures Key(s) == Joined(words) && MadeOf(LowerAll(Trim(s)), words)
  {
    var left, right := TrimMeans(s);
    LowerAllMeans(Trim(s));
    var lowered := LowerAll(Trim(s));
    if lowered != [] {
      LowerMeans(Trim(s)[0]);
      LowerMeans(Trim(s)[|Trim(s)| - 1]);
    }
    words := SplitsIntoWords(lowered);
    WordsMean(lowered, words);
  }

  /** Two texts with the same words in lower case have the same key. */
  lemma SameWordsSameKey(s: string, t: string, words: seq<string>)
    requires MadeOf(LowerAll(Trim(s)), words) && MadeOf(LowerAll(Trim(t)), words)
    ensures Key(s) == Key(t)
  {
    WordsMean(LowerAll(Trim(s)), words);
    WordsMean(LowerAll(Trim(t)), words);
  }

  /** A key is empty exactly for a blank text. */
  lemma KeyIsEmptyIff(s: string)
    ensures Key(s) == [] <==> AllSpace(s)
  {
    var words := KeyMeans(s);
    TrimmedIsBlankIff(s);
    LowerAllMeans(Trim(s));
    if words != [] {
      MadeOfStarts(LowerAll(Trim(s)), words);
      assert Joined(words) != [] by { assert words[0] != []; }
    }
  }
}
