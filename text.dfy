/** Python string operations the core relies on, restricted to what it uses:
    substring search, `str.replace`, `str.strip`, `str.split`/`str.join` on one
    separator character, and upper/lower case (ASCII letters only). */
module Text {

  /** `p` occurs in `s` starting at index `i`. */
  predicate OccursAt(s: string, p: string, i: int) {
    0 <= i && i + |p| <= |s| && s[i..i + |p|] == p
  }

  predicate StartsWith(s: string, p: string) {
    |p| <= |s| && s[..|p|] == p
  }

  predicate EndsWith(s: string, p: string) {
    |p| <= |s| && s[|s| - |p|..] == p
  }

  /** Python's `p in s` for strings. */
  function Contains(s: string, p: string): (r: bool)
    ensures r <==> exists i :: OccursAt(s, p, i)
    decreases |s|
  {
    if StartsWith(s, p) then
      assert OccursAt(s, p, 0);
      true
    else if |s| == 0 then
      assert forall i :: !OccursAt(s, p, i);
      false
    else
      ShiftOccurrence(s, p);
      Contains(s[1..], p)
  }

  lemma ShiftOccurrence(s: string, p: string)
    requires |s| > 0
    requires !StartsWith(s, p)
    ensures (exists i :: OccursAt(s, p, i)) <==> (exists i :: OccursAt(s[1..], p, i))
  {
    forall i | OccursAt(s, p, i)
      ensures OccursAt(s[1..], p, i - 1)
    {
      assert i != 0;
      assert s[1..][i - 1..i - 1 + |p|] == s[i..i + |p|];
    }
    forall i | OccursAt(s[1..], p, i)
      ensures OccursAt(s, p, i + 1)
    {
      assert s[1..][i..i + |p|] == s[i + 1..i + 1 + |p|];
    }
  }

  lemma ContainsPrefix(p: string, b: string)
    ensures Contains(p + b, p)
  {
    assert OccursAt(p + b, p, 0);
  }

  lemma ContainsRight(a: string, b: string, p: string)
    requires Contains(b, p)
    ensures Contains(a + b, p)
  {
    var i :| OccursAt(b, p, i);
    assert (a + b)[|a| + i..|a| + i + |p|] == b[i..i + |p|];
    assert OccursAt(a + b, p, |a| + i);
  }

  /** Python's `s.replace(pat, rep)`: every leftmost, non-overlapping occurrence
      of `pat` is replaced, scanning left to right. Every caller in the core
      replaces a non-empty pattern. */
  function ReplaceAll(s: string, pat: string, rep: string): string
    requires |pat| > 0
    decreases |s|
  {
    if |s| < |pat| then s
    else if s[..|pat|] == pat then rep + ReplaceAll(s[|pat|..], pat, rep)
    else [s[0]] + ReplaceAll(s[1..], pat, rep)
  }

  /** A string in which `pat` does not occur is left unchanged by `replace`. */
  lemma {:induction false} ReplaceAllAbsent(s: string, pat: string, rep: string)
    requires |pat| > 0
    requires !Contains(s, pat)
    ensures ReplaceAll(s, pat, rep) == s
    decreases |s|
  {
    if |s| >= |pat| {
      assert !OccursAt(s, pat, 0);
      assert !Contains(s[1..], pat);
      ReplaceAllAbsent(s[1..], pat, rep);
    }
  }

  /** `replace` on a string that is exactly the pattern. */
  lemma ReplaceAllSelf(pat: string, rep: string)
    requires |pat| > 0
    ensures ReplaceAll(pat, pat, rep) == rep
  {
    assert pat[..|pat|] == pat && pat[|pat|..] == [];
    assert ReplaceAll(pat[|pat|..], pat, rep) == [];
  }

  /** No occurrence of `pat` in `a + b` starts inside `a` and ends inside
      `b`. */
  predicate NoStraddle(a: string, b: string, pat: string) {
    forall i :: 0 <= i < |a| < i + |pat| ==> !OccursAt(a + b, pat, i)
  }

  /** `replace` works piecewise on a concatenation no occurrence straddles. */
  lemma {:induction false} ReplaceAllConcat(a: string, b: string, pat: string, rep: string)
    requires |pat| > 0 && NoStraddle(a, b, pat)
    ensures ReplaceAll(a + b, pat, rep) == ReplaceAll(a, pat, rep) + ReplaceAll(b, pat, rep)
    decreases |a|, 1
  {
    if a == [] {
      assert a + b == b;
    } else if |a + b| < |pat| {
    } else if (a + b)[..|pat|] == pat {
      ConcatAtMatch(a, b, pat, rep);
    } else {
      ConcatAtCopy(a, b, pat, rep);
    }
  }

  lemma {:induction false} ConcatAtMatch(a: string, b: string, pat: string, rep: string)
    requires |pat| > 0 && NoStraddle(a, b, pat) && a != []
    requires |a + b| >= |pat| && (a + b)[..|pat|] == pat
    ensures ReplaceAll(a + b, pat, rep) == ReplaceAll(a, pat, rep) + ReplaceAll(b, pat, rep)
    decreases |a|, 0
  {
    var s := a + b;
    assert |a| >= |pat| by {
      assert OccursAt(s, pat, 0);
    }
    var a' := a[|pat|..];
    assert ReplaceAll(a, pat, rep) == rep + ReplaceAll(a', pat, rep) by {
      assert a[..|pat|] == pat;
    }
    assert ReplaceAll(s, pat, rep) == rep + ReplaceAll(a' + b, pat, rep) by {
      assert s[|pat|..] == a' + b;
    }
    NoStraddleDrop(a, b, pat, |pat|);
    ReplaceAllConcat(a', b, pat, rep);
    AppendAssoc(rep, ReplaceAll(a', pat, rep), ReplaceAll(b, pat, rep));
  }

  lemma {:induction false} ConcatAtCopy(a: string, b: string, pat: string, rep: string)
    requires |pat| > 0 && NoStraddle(a, b, pat) && a != []
    requires |a + b| >= |pat| && (a + b)[..|pat|] != pat
    ensures ReplaceAll(a + b, pat, rep) == ReplaceAll(a, pat, rep) + ReplaceAll(b, pat, rep)
    decreases |a|, 0
  {
    var s := a + b;
    var a' := a[1..];
    assert ReplaceAll(a, pat, rep) == [a[0]] + ReplaceAll(a', pat, rep) by {
      if |a| >= |pat| {
        assert a[..|pat|] == s[..|pat|];
      }
    }
    assert ReplaceAll(s, pat, rep) == [a[0]] + ReplaceAll(a' + b, pat, rep) by {
      assert s[1..] == a' + b;
    }
    NoStraddleDrop(a, b, pat, 1);
    ReplaceAllConcat(a', b, pat, rep);
    AppendAssoc([a[0]], ReplaceAll(a', pat, rep), ReplaceAll(b, pat, rep));
  }

  lemma AppendAssoc(x: string, y: string, z: string)
    ensures x + (y + z) == x + y + z
  {
  }

  lemma NoStraddleDrop(a: string, b: string, pat: string, k: nat)
    requires NoStraddle(a, b, pat) && k <= |a|
    ensures NoStraddle(a[k..], b, pat)
  {
    var a' := a[k..];
    assert a' + b == (a + b)[k..];
    forall i | 0 <= i < |a'| < i + |pat| ensures !OccursAt(a' + b, pat, i) {
      assert !OccursAt(a + b, pat, i + k);
      if i + |pat| <= |a' + b| {
        assert (a' + b)[i..i + |pat|] == (a + b)[i + k..i + k + |pat|];
      }
    }
  }

  /** Nothing straddles a boundary before which stands a character that
      can only end an occurrence. */
  lemma NoStraddleByLast(a: string, b: string, pat: string)
    requires |pat| > 0 && a != [] && a[|a| - 1] !in pat[..|pat| - 1]
    ensures NoStraddle(a, b, pat)
  {
    forall i | 0 <= i < |a| < i + |pat| ensures !OccursAt(a + b, pat, i) {
      if i + |pat| <= |a + b| {
        var j := |a| - 1 - i;
        assert (a + b)[i..i + |pat|][j] == a[|a| - 1];
        assert pat[..|pat| - 1][j] == pat[j];
      }
    }
  }

  /** Nothing straddles a boundary after which stands a character that can
      only start an occurrence, or only end one that `a` does not lead
      into. */
  lemma NoStraddleByFirst(a: string, b: string, pat: string)
    requires |pat| > 0 && b != []
    requires b[0] !in pat[1..] || (b[0] !in pat[1..|pat| - 1] && !EndsWith(a, pat[..|pat| - 1]))
    ensures NoStraddle(a, b, pat)
  {
    forall i | 0 <= i < |a| < i + |pat| ensures !OccursAt(a + b, pat, i) {
      if i + |pat| <= |a + b| {
        var j := |a| - i;
        assert (a + b)[i..i + |pat|][j] == b[0];
        assert pat[1..][j - 1] == pat[j];
        if j < |pat| - 1 {
          assert pat[1..|pat| - 1][j - 1] == pat[j];
        } else {
          assert a[|a| - (|pat| - 1)..] == (a + b)[i..i + |pat|][..|pat| - 1];
        }
      }
    }
  }

  /** A pattern holding a character the string lacks does not occur. */
  lemma AbsentByChar(s: string, pat: string, c: char)
    requires c in pat && c !in s
    ensures !Contains(s, pat)
  {
    var j :| 0 <= j < |pat| && pat[j] == c;
    forall i | 0 <= i && i + |pat| <= |s| ensures !OccursAt(s, pat, i) {
      assert s[i..i + |pat|][j] == s[i + j];
    }
  }

  /** Replacing one character by a string, character by character: the
      reference definition `ReplaceAll` is compared with for a one-character
      pattern. */
  function MapChar(s: string, c: char, rep: string): string
    decreases |s|
  {
    if s == [] then []
    else (if s[0] == c then rep else [s[0]]) + MapChar(s[1..], c, rep)
  }

  lemma {:induction false} ReplaceCharIsMapChar(s: string, c: char, rep: string)
    ensures ReplaceAll(s, [c], rep) == MapChar(s, c, rep)
    decreases |s|
  {
    if s != [] {
      assert s[..1] == [s[0]];
      ReplaceCharIsMapChar(s[1..], c, rep);
    }
  }

  /** After replacing a character by a string that does not contain it, the
      character no longer occurs. */
  lemma {:induction false} MapCharRemoves(s: string, c: char, rep: string)
    requires c !in rep
    ensures c !in MapChar(s, c, rep)
    decreases |s|
  {
    if s != [] {
      MapCharRemoves(s[1..], c, rep);
    }
  }

  /** Python's `str.isspace()` on the characters below 0x80, which is what the
      regular-expression class `\s` and `str.strip()` use. */
  predicate IsSpace(c: char) {
    c == ' ' || (9 <= c as int <= 13) || (28 <= c as int <= 31)
  }

  function TrimLeft(s: string, drop: char -> bool): (r: string)
    ensures |r| <= |s| && r == s[|s| - |r|..]
    ensures r != [] ==> !drop(r[0])
    decreases |s|
  {
    if s != [] && drop(s[0]) then TrimLeft(s[1..], drop) else s
  }

  function TrimRight(s: string, drop: char -> bool): (r: string)
    ensures |r| <= |s| && r == s[..|r|]
    ensures r != [] ==> !drop(r[|r| - 1])
    decreases |s|
  {
    if s != [] && drop(s[|s| - 1]) then TrimRight(s[..|s| - 1], drop) else s
  }

  /** Python's `s.strip(chars)`, with `drop` telling the characters in `chars`. */
  function StripBy(s: string, drop: char -> bool): string {
    TrimRight(TrimLeft(s, drop), drop)
  }

  /** Python's `s.strip()`. */
  function Strip(s: string): string {
    StripBy(s, IsSpace)
  }

  function UpperChar(c: char): char {
    if 'a' <= c <= 'z' then (c as int - 32) as char else c
  }

  function LowerChar(c: char): char {
    if 'A' <= c <= 'Z' then (c as int + 32) as char else c
  }

  /** Python's `s.upper()` on ASCII letters. */
  function Upper(s: string): (r: string)
    ensures |r| == |s| && forall i :: 0 <= i < |s| ==> r[i] == UpperChar(s[i])
  {
    seq(|s|, i requires 0 <= i < |s| => UpperChar(s[i]))
  }

  /** Python's `s.split(sep)` for a one-character separator. */
  function Split(s: string, sep: char): (r: seq<string>)
    ensures |r| > 0
    decreases |s|
  {
    if s == [] then [""]
    else if s[0] == sep then [""] + Split(s[1..], sep)
    else
      var rest := Split(s[1..], sep);
      [[s[0]] + rest[0]] + rest[1..]
  }

  /** Python's `sep.join(parts)`. */
  function Join(parts: seq<string>, sep: string): string
    decreases |parts|
  {
    if parts == [] then ""
    else if |parts| == 1 then parts[0]
    else parts[0] + sep + Join(parts[1..], sep)
  }

  /** Joining the pieces of a split with the same separator gives back the string. */
  lemma {:induction false} JoinSplit(s: string, sep: char)
    ensures Join(Split(s, sep), [sep]) == s
    decreases |s|
  {
    if s != [] {
      JoinSplit(s[1..], sep);
      var rest := Split(s[1..], sep);
      if s[0] == sep {
        assert Split(s, sep) == [""] + rest;
      } else {
        var r := Split(s, sep);
        assert r == [[s[0]] + rest[0]] + rest[1..];
        if |rest| == 1 {
          assert r == [[s[0]] + rest[0]];
        } else {
          assert r[1..] == rest[1..];
          assert Join(r, [sep]) == [s[0]] + rest[0] + [sep] + Join(rest[1..], [sep]);
        }
      }
    }
  }

  /** No piece of a split contains the separator. */
  lemma {:induction false} SplitPiecesFree(s: string, sep: char)
    ensures forall k :: 0 <= k < |Split(s, sep)| ==> sep !in Split(s, sep)[k]
    decreases |s|
  {
    if s != [] {
      SplitPiecesFree(s[1..], sep);
    }
  }

  /** Splitting a join of separator-free pieces gives back the pieces. */
  lemma {:induction false} SplitJoin(parts: seq<string>, sep: char)
    requires |parts| > 0
    requires forall k :: 0 <= k < |parts| ==> sep !in parts[k]
    ensures Split(Join(parts, [sep]), sep) == parts
    decreases |parts|, |parts[0]|
  {
    if parts[0] == [] {
      if |parts| > 1 {
        SplitJoin(parts[1..], sep);
        assert Join(parts, [sep]) == [sep] + Join(parts[1..], [sep]);
        assert [""] + parts[1..] == parts;
      }
    } else {
      var p0 := parts[0];
      var tail := [p0[1..]] + parts[1..];
      assert tail[1..] == parts[1..];
      SplitJoin(tail, sep);
      if |parts| == 1 {
        assert Join(parts, [sep]) == [p0[0]] + Join(tail, [sep]);
      } else {
        assert Join(parts, [sep]) == [p0[0]] + Join(tail, [sep]);
      }
      var j := Join(parts, [sep]);
      assert j[1..] == Join(tail, [sep]);
      assert j[0] == p0[0];
      assert [p0[0]] + p0[1..] == p0;
      assert [p0] + parts[1..] == parts;
    }
  }
}
