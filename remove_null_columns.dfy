/** `generate_case_combinations` of block_models/batch/remove_null_columns.py:
    every spelling of a word obtained by writing each letter in upper or in
    lower case (ASCII letters only). */
module RemoveNullColumns {
  import Text

  function Pow2(n: nat): (r: nat)
    ensures r >= 1
  {
    if n == 0 then 1 else 2 * Pow2(n - 1)
  }

  /** The loop of lines 19-21: for each spelling of the rest, the upper
      then the lower variant of the first character before it. */
  function Prefixed(c: char, rests: seq<string>): (r: seq<string>)
    ensures |r| == 2 * |rests|
    ensures forall k :: 0 <= k < |rests| ==>
      r[2 * k] == [Text.UpperChar(c)] + rests[k] && r[2 * k + 1] == [Text.LowerChar(c)] + rests[k]
  {
    if rests == [] then []
    else
      var tail := Prefixed(c, rests[1..]);
      assert forall k :: 1 <= k < |rests| ==> rests[k] == rests[1..][k - 1];
      [[Text.UpperChar(c)] + rests[0], [Text.LowerChar(c)] + rests[0]] + tail
  }

  /** `generate_case_combinations(word)`. */
  function CaseCombinations(word: string): (r: seq<string>)
    decreases |word|
  {
    if word == [] then [""]
    else Prefixed(word[0], CaseCombinations(word[1..]))
  }

  /** One of the two case forms of `c`. */
  predicate CaseOf(x: char, c: char) {
    x == Text.UpperChar(c) || x == Text.LowerChar(c)
  }

  /** `s` spells `word` with each character in one of its case forms. */
  predicate Spelling(s: string, word: string) {
    |s| == |word| && forall i :: 0 <= i < |s| ==> CaseOf(s[i], word[i])
  }

  /** There are 2^n spellings of an n-character word, counting repeats. */
  lemma {:induction false} CaseCombinationsCount(word: string)
    ensures |CaseCombinations(word)| == Pow2(|word|)
    decreases |word|
  {
    if word != [] {
      CaseCombinationsCount(word[1..]);
    }
  }

  /** Every entry spells the word. */
  lemma {:induction false} CaseCombinationsSound(word: string)
    ensures forall s :: s in CaseCombinations(word) ==> Spelling(s, word)
    decreases |word|
  {
    if word != [] {
      CaseCombinationsSound(word[1..]);
      var rests := CaseCombinations(word[1..]);
      var r := CaseCombinations(word);
      forall s | s in r ensures Spelling(s, word) {
        var j :| 0 <= j < |r| && r[j] == s;
        var k := j / 2;
        assert rests[k] in rests;
        assert s[1..] == rests[k];
        forall i | 0 <= i < |s| ensures CaseOf(s[i], word[i]) {
          if i > 0 {
            assert s[i] == rests[k][i - 1];
          }
        }
      }
    }
  }

  /** Every spelling of the word is an entry. */
  lemma {:induction false} CaseCombinationsComplete(word: string, s: string)
    requires Spelling(s, word)
    ensures s in CaseCombinations(word)
    decreases |word|
  {
    if word != [] {
      assert Spelling(s[1..], word[1..]) by {
        forall i | 0 <= i < |s[1..]| ensures CaseOf(s[1..][i], word[1..][i]) {
          assert CaseOf(s[i + 1], word[i + 1]);
        }
      }
      CaseCombinationsComplete(word[1..], s[1..]);
      var rests := CaseCombinations(word[1..]);
      var k :| 0 <= k < |rests| && rests[k] == s[1..];
      var r := CaseCombinations(word);
      assert s == [s[0]] + s[1..];
      if s[0] == Text.UpperChar(word[0]) {
        assert r[2 * k] == s;
      } else {
        assert r[2 * k + 1] == s;
      }
    }
  }

  /** The first entry is the word in upper case. */
  lemma {:induction false} FirstAllUpper(word: string)
    ensures var r := CaseCombinations(word);
      |r| > 0 && |r[0]| == |word| && forall i :: 0 <= i < |word| ==> r[0][i] == Text.UpperChar(word[i])
    decreases |word|
  {
    if word != [] {
      FirstAllUpper(word[1..]);
      var rests := CaseCombinations(word[1..]);
      var first := [Text.UpperChar(word[0])] + rests[0];
      assert CaseCombinations(word)[0] == first;
      forall i | 1 <= i < |word| ensures first[i] == Text.UpperChar(word[i]) {
        assert first[i] == rests[0][i - 1];
      }
    }
  }

  /** The last entry is the word in lower case. */
  lemma {:induction false} LastAllLower(word: string)
    ensures var r := CaseCombinations(word);
      |r| > 0 && |r[|r| - 1]| == |word| && forall i :: 0 <= i < |word| ==> r[|r| - 1][i] == Text.LowerChar(word[i])
    decreases |word|
  {
    if word != [] {
      LastAllLower(word[1..]);
      var rests := CaseCombinations(word[1..]);
      var r := CaseCombinations(word);
      var k := |rests| - 1;
      var last := [Text.LowerChar(word[0])] + rests[k];
      assert |r| - 1 == 2 * k + 1;
      assert r[|r| - 1] == last;
      forall i | 1 <= i < |word| ensures last[i] == Text.LowerChar(word[i]) {
        assert last[i] == rests[k][i - 1];
      }
    }
  }
}
