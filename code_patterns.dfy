/** The text rewrite of a block's source that runs before it is parsed
    (`replace_code_patterns` in mage_to_cwl/mage_to_python_utils.py):
    keyword-option lookups become environment-variable reads, and the
    secret-lookup idiom becomes a read of `PASSWORD`.

    Each of the three regular expressions is modelled as a matcher that says
    whether it matches at the START of a string and, if so, how long the
    match is, what replaces it and which variable names the replacement
    callback appends. `Sub` is Python's `re.sub` for such a matcher. */
module CodePatterns {
  import opened Wrappers
  import opened Text

  /** One match: its length, its replacement text, the names appended to the
      environment-variable list by the replacement callback. */
  datatype Hit = Hit(len: nat, text: string, vars: seq<string>)

  /** Rewritten text together with the environment-variable names collected. */
  datatype Rewrite = Rewrite(text: string, vars: seq<string>)

  /** `re.sub(pattern, callback, s)`: scan left to right; where the pattern
      matches, emit the replacement and resume after the match, otherwise copy
      one character. Matches are leftmost and do not overlap. */
  function Sub(s: string, at: string -> Option<Hit>): Rewrite
    decreases |s|
  {
    if s == [] then Rewrite([], [])
    else if at(s).Some? && 0 < at(s).value.len <= |s| then
      var h := at(s).value;
      var r := Sub(s[h.len..], at);
      Rewrite(h.text + r.text, h.vars + r.vars)
    else
      var r := Sub(s[1..], at);
      Rewrite([s[0]] + r.text, r.vars)
  }

  /** A stretch of text at none of whose positions the pattern matches is
      copied verbatim and contributes no variable. */
  lemma {:induction false} SubSkip(a: string, t: string, at: string -> Option<Hit>)
    requires forall i :: 0 <= i < |a| ==> at((a + t)[i..]) == None
    ensures Sub(a + t, at) == Rewrite(a + Sub(t, at).text, Sub(t, at).vars)
    decreases |a|
  {
    if a != [] {
      assert (a + t)[0..] == a + t;
      assert (a + t)[1..] == a[1..] + t;
      forall i | 0 <= i < |a[1..]|
        ensures at((a[1..] + t)[i..]) == None
      {
        assert (a[1..] + t)[i..] == (a + t)[i + 1..];
      }
      SubSkip(a[1..], t, at);
    }
  }

  /** Where the pattern matches at the front, the replacement is emitted and
      its variables come first. */
  lemma SubHit(s: string, at: string -> Option<Hit>)
    requires at(s).Some? && 0 < at(s).value.len <= |s|
    ensures Sub(s, at) == Rewrite(at(s).value.text + Sub(s[at(s).value.len..], at).text,
                                  at(s).value.vars + Sub(s[at(s).value.len..], at).vars)
  {
  }

  /** Text in which the pattern matches nowhere is returned unchanged. */
  lemma NoMatchUnchanged(s: string, at: string -> Option<Hit>)
    requires forall i :: 0 <= i < |s| ==> at(s[i..]) == None
    ensures Sub(s, at) == Rewrite(s, [])
  {
    assert s + [] == s;
    SubSkip(s, [], at);
  }

  // ---------------------------------------------------------------------
  // kwargs\.get\(([^)]+)\)

  const KwargsCall: string := "kwargs.get("

  /** The first index at or after `from` holding a closing parenthesis. */
  function CloseParen(s: string, from: nat): (r: Option<nat>)
    requires from <= |s|
    ensures r.Some? ==> from <= r.value < |s| && s[r.value] == ')'
    ensures r.Some? ==> forall k :: from <= k < r.value ==> s[k] != ')'
    ensures r.None? ==> forall k :: from <= k < |s| ==> s[k] != ')'
    decreases |s| - from
  {
    if from == |s| then None
    else if s[from] == ')' then Some(from)
    else CloseParen(s, from + 1)
  }

  /** The variable name for an argument: outer quote characters stripped,
      then upper-cased. */
  function EnvName(arg: string): string {
    Upper(StripBy(arg, IsQuote))
  }

  /** The characters of `strip("'\"")`. */
  predicate IsQuote(c: char) {
    c == '\'' || c == '"'
  }

  function GetenvSingle(name: string): string {
    "os.getenv('" + name + "')"
  }

  /** `kwargs.get(X)` with X one or more characters other than `)`; the
      replacement is `os.getenv('U')` and U is appended. */
  function KwargsAt(s: string): (r: Option<Hit>)
    ensures r.Some? ==> |KwargsCall| < r.value.len <= |s|
    ensures r.Some? ==>
      var arg := s[|KwargsCall|..r.value.len - 1];
      && arg != [] && ')' !in arg
      && s[..r.value.len] == KwargsLookup(arg)
      && r.value == Hit(|arg| + 12, GetenvSingle(EnvName(arg)), [EnvName(arg)])
  {
    if !StartsWith(s, KwargsCall) then None
    else match CloseParen(s, |KwargsCall|)
      case Some(k) =>
        if k == |KwargsCall| then None
        else
          var arg := s[|KwargsCall|..k];
          assert ')' !in arg by {
            forall m | 0 <= m < |arg| ensures arg[m] != ')' {
              assert arg[m] == s[|KwargsCall| + m];
            }
          }
          assert s[..k + 1] == KwargsLookup(arg) by {
            assert s[..k + 1] == s[..|KwargsCall|] + arg + [s[k]];
          }
          var name := EnvName(arg);
          Some(Hit(k + 1, GetenvSingle(name), [name]))
      case None => None
  }

  /** The source text of one lookup `kwargs.get(arg)`. */
  function KwargsLookup(arg: string): string {
    KwargsCall + arg + ")"
  }

  /** A lookup whose argument is non-empty and has no `)` is replaced by the
      environment read of its upper-cased, unquoted name, and that name is the
      first one collected. */
  lemma KwargsLookupRewritten(arg: string, rest: string)
    requires arg != [] && ')' !in arg
    ensures Sub(KwargsLookup(arg) + rest, KwargsAt)
      == Rewrite(GetenvSingle(EnvName(arg)) + Sub(rest, KwargsAt).text,
                 [EnvName(arg)] + Sub(rest, KwargsAt).vars)
  {
    var s := KwargsLookup(arg) + rest;
    var n := |KwargsCall|;
    assert s[..n] == KwargsCall;
    assert s[n..n + |arg|] == arg;
    assert s[n + |arg|] == ')';
    assert forall k :: n <= k < n + |arg| ==> s[k] == arg[k - n];
    assert CloseParen(s, n) == Some(n + |arg|);
    assert s[n + |arg| + 1..] == rest;
  }

  /** A lookup with an empty argument, `kwargs.get()`, is not a match. */
  lemma EmptyLookupIgnored(rest: string)
    ensures KwargsAt(KwargsLookup("") + rest) == None
  {
    var s := KwargsLookup("") + rest;
    assert s[|KwargsCall|] == ')';
  }

  /** Text before a lookup that starts no lookup of its own is copied, and the
      lookup's name is the first one collected. */
  lemma {:induction false} LookupAfterText(before: string, arg: string, rest: string)
    requires arg != [] && ')' !in arg
    requires forall i :: 0 <= i < |before| ==> !StartsWith(before[i..] + KwargsLookup(arg), KwargsCall)
    ensures Sub(before + (KwargsLookup(arg) + rest), KwargsAt).vars == [EnvName(arg)] + Sub(rest, KwargsAt).vars
  {
    var call := KwargsLookup(arg);
    forall i | 0 <= i < |before| ensures KwargsAt((before + (call + rest))[i..]) == None {
      assert (before + (call + rest))[i..] == before[i..] + call + rest;
      assert (before[i..] + call + rest)[..|KwargsCall|] == (before[i..] + call)[..|KwargsCall|];
    }
    SubSkip(before, call + rest, KwargsAt);
    KwargsLookupRewritten(arg, rest);
  }

  /** The option the `data_imputation` block reads, quotes included. */
  const StrategyOption: string := "\"strategy\""

  lemma StrategyName()
    ensures EnvName(StrategyOption) == "STRATEGY"
  {
    var q := StrategyOption;
    assert TrimLeft(q[1..], IsQuote) == q[1..];
    assert TrimLeft(q, IsQuote) == q[1..];
    assert q[1..][..|q| - 2] == "strategy";
    assert TrimRight("strategy", IsQuote) == "strategy";
    assert TrimRight(q[1..], IsQuote) == "strategy";
    var u := Upper("strategy");
    assert u[0] == 'S' && u[1] == 'T' && u[2] == 'R' && u[3] == 'A';
    assert u[4] == 'T' && u[5] == 'E' && u[6] == 'G' && u[7] == 'Y';
  }

  /** A lookup followed by text that starts no other lookup contributes
      exactly its own name. */
  lemma {:induction false} LastLookup(before: string, arg: string, after: string)
    requires arg != [] && ')' !in arg
    requires forall i :: 0 <= i < |before| ==> !StartsWith(before[i..] + KwargsLookup(arg), KwargsCall)
    requires forall i :: 0 <= i < |after| ==> !StartsWith(after[i..], KwargsCall)
    ensures Sub(before + (KwargsLookup(arg) + after), KwargsAt).vars == [EnvName(arg)]
  {
    NoMatchUnchanged(after, KwargsAt);
    LookupAfterText(before, arg, after);
  }

  /** Two lookups separated by text that starts no lookup are both collected,
      in order, even when they read the same option. */
  lemma {:induction false} TwoLookupsInOrder(before: string, first: string, between: string, second: string, after: string)
    requires first != [] && ')' !in first && second != [] && ')' !in second
    requires forall i :: 0 <= i < |before| ==> !StartsWith(before[i..] + KwargsLookup(first), KwargsCall)
    requires forall i :: 0 <= i < |between| ==> !StartsWith(between[i..] + KwargsLookup(second), KwargsCall)
    requires forall i :: 0 <= i < |after| ==> !StartsWith(after[i..], KwargsCall)
    ensures Sub(before + (KwargsLookup(first) + (between + (KwargsLookup(second) + after))), KwargsAt).vars
      == [EnvName(first), EnvName(second)]
  {
    LastLookup(between, second, after);
    LookupAfterText(before, first, between + (KwargsLookup(second) + after));
  }

  /** The `data_imputation` block reads `kwargs.get("strategy")` twice; both
      reads are collected as `STRATEGY`, without de-duplication. */
  lemma StrategyCollectedTwice(before: string, between: string, after: string)
    requires forall i :: 0 <= i < |before| ==> !StartsWith(before[i..] + KwargsLookup(StrategyOption), KwargsCall)
    requires forall i :: 0 <= i < |between| ==> !StartsWith(between[i..] + KwargsLookup(StrategyOption), KwargsCall)
    requires forall i :: 0 <= i < |after| ==> !StartsWith(after[i..], KwargsCall)
    ensures
      Sub(before + (KwargsLookup(StrategyOption) + (between + (KwargsLookup(StrategyOption) + after))), KwargsAt).vars
      == ["STRATEGY", "STRATEGY"]
  {
    var arg := StrategyOption;
    assert arg[0] == '"' && arg[9] == '"' && |arg| == 10;
    assert ')' !in arg;
    TwoLookupsInOrder(before, arg, between, arg, after);
    StrategyName();
  }

  // ---------------------------------------------------------------------
  // secret_name\s*=\s*"password-" \+ os.getenv\(\'PIPELINE_NAME\'\)\s*
  // (the `.` in `os.getenv` is unescaped: it matches any character but a
  // newline)

  /** The first index at or after `i` that is not whitespace. */
  function SkipSpace(s: string, i: nat): (j: nat)
    requires i <= |s|
    ensures i <= j <= |s|
    ensures forall k :: i <= k < j ==> IsSpace(s[k])
    ensures j < |s| ==> !IsSpace(s[j])
    decreases |s| - i
  {
    if i < |s| && IsSpace(s[i]) then SkipSpace(s, i + 1) else i
  }

  const SecretTarget: string := "secret_name"
  const SecretValueHead: string := "\"password-\" + os"
  const SecretValueTail: string := "getenv('PIPELINE_NAME')"

  /** `target\s*=\s*` at the start of `s`: the index after the whitespace
      that follows `=`. */
  function AssignedAt(s: string, target: string): (r: Option<nat>)
    ensures r.Some? ==> |target| < r.value <= |s|
  {
    if !StartsWith(s, target) then None
    else
      var i := SkipSpace(s, |target|);
      if i == |s| || s[i] != '=' then None
      else Some(SkipSpace(s, i + 1))
  }

  /** `target\s*=\s*head.tail\s*` at the start of `s`, where `.` is any
      character but a newline: the index after the trailing whitespace. */
  function AssignedValueEnd(s: string, target: string, head: string, tail: string): (r: Option<nat>)
    ensures r.Some? ==> |target| < r.value <= |s|
  {
    match AssignedAt(s, target)
    case None => None
    case Some(j) =>
      var u, h := s[j..], |head|;
      if h < |u| && StartsWith(u, head) && u[h] != '\n' && StartsWith(u[h + 1..], tail)
      then Some(SkipSpace(s, j + h + 1 + |tail|))
      else None
  }

  /** The statement deriving the secret name, with the whitespace after it;
      it is deleted and collects nothing. */
  function SecretAt(s: string): (r: Option<Hit>)
    ensures r.Some? ==> 0 < r.value.len <= |s| && r.value.text == [] && r.value.vars == []
  {
    match AssignedValueEnd(s, SecretTarget, SecretValueHead, SecretValueTail)
    case None => None
    case Some(n) => Some(Hit(n, [], []))
  }

  // ---------------------------------------------------------------------
  // password\s*=\s*get_secret_value\(secret_name\)

  const PasswordTarget: string := "password"
  const PasswordFetch: string := "get_secret_value(secret_name)"
  const PasswordRead: string := "password = os.getenv(\"PASSWORD\")"

  function PasswordAt(s: string): (r: Option<Hit>)
    ensures r.Some? ==> 0 < r.value.len <= |s| && r.value.text == PasswordRead && r.value.vars == ["PASSWORD"]
  {
    match AssignedAt(s, PasswordTarget)
    case None => None
    case Some(j) =>
      if StartsWith(s[j..], PasswordFetch) then Some(Hit(j + |PasswordFetch|, PasswordRead, ["PASSWORD"]))
      else None
  }

  /** A run of whitespace, as `\s*` matches it. */
  predicate Blank(w: string) {
    forall k :: 0 <= k < |w| ==> IsSpace(w[k])
  }

  /** `SkipSpace` stops exactly where a run of whitespace ends. */
  lemma SkipSpaceRun(s: string, i: nat, w: string, rest: string)
    requires i <= |s| && s[i..] == w + rest && Blank(w)
    requires rest == [] || !IsSpace(rest[0])
    ensures SkipSpace(s, i) == i + |w|
  {
    assert forall k :: i <= k < i + |w| ==> s[k] == s[i..][k - i];
    if rest != [] {
      assert s[i + |w|] == s[i..][|w|];
    }
  }

  /** `x\s*=\s*` matches up to `y`, which does not start with
      whitespace. */
  lemma Assignment(x: string, w1: string, w2: string, y: string, rest: string)
    requires Blank(w1) && Blank(w2) && y != [] && !IsSpace(y[0])
    ensures var s := x + w1 + "=" + w2 + y + rest;
      && AssignedAt(s, x) == Some(|x| + |w1| + 1 + |w2|)
      && s[|x| + |w1| + 1 + |w2|..] == y + rest
  {
    var s := x + w1 + "=" + w2 + y + rest;
    var i := |x| + |w1|;
    assert s[..|x|] == x;
    assert s[|x|..] == w1 + ("=" + w2 + y + rest);
    SkipSpaceRun(s, |x|, w1, "=" + w2 + y + rest);
    assert s[i + 1..] == w2 + (y + rest);
    SkipSpaceRun(s, i + 1, w2, y + rest);
  }

  /** Whitespace `w` after a prefix `p` is skipped up to `rest`. */
  lemma TrailingSpace(p: string, w: string, rest: string)
    requires Blank(w) && (rest == [] || !IsSpace(rest[0]))
    ensures SkipSpace(p + w + rest, |p|) == |p| + |w|
  {
    assert (p + w + rest)[|p|..] == w + rest;
    SkipSpaceRun(p + w + rest, |p|, w, rest);
  }

  /** `secret_name = "password-" + os.getenv('PIPELINE_NAME')` with the
      whitespace runs `w1` and `w2` around `=`, any character `c` but a
      newline for the unescaped `.`, and the whitespace `w3` after it. */
  function SecretStatement(w1: string, w2: string, c: char, w3: string): string {
    SecretTarget + w1 + "=" + w2 + SecretValueHead + [c] + SecretValueTail + w3
  }

  /** `head.tail` matches at the start of `head + [c] + tail + more`. */
  lemma ValueMatches(head: string, c: char, tail: string, more: string)
    ensures var u := head + [c] + tail + more;
      && |head| < |u| && StartsWith(u, head) && u[|head|] == c
      && StartsWith(u[|head| + 1..], tail)
  {
    var u := head + [c] + tail + more;
    assert u[..|head|] == head;
    assert u[|head| + 1..] == tail + more;
    assert u[|head| + 1..][..|tail|] == tail;
  }

  /** `target\s*=\s*` matches up to the value `head + [c] + ...`. */
  lemma ValueAssigned(target: string, w1: string, w2: string, head: string, c: char, tail: string, w3: string, rest: string)
    requires Blank(w1) && Blank(w2) && head != [] && !IsSpace(head[0])
    ensures var s := target + w1 + "=" + w2 + head + [c] + tail + w3 + rest;
      var j := |target| + |w1| + 1 + |w2|;
      AssignedAt(s, target) == Some(j) && s[j..] == head + [c] + tail + (w3 + rest)
  {
    var v := head + [c] + tail;
    var s := target + w1 + "=" + w2 + head + [c] + tail + w3 + rest;
    assert s == target + w1 + "=" + w2 + v + (w3 + rest);
    Assignment(target, w1, w2, v, w3 + rest);
  }

  /** `target\s*=\s*head.tail\s*` matches a statement of that form and
      all the whitespace after it. */
  lemma AssignedValueMatches(target: string, w1: string, w2: string, head: string, c: char, tail: string, w3: string, rest: string)
    requires Blank(w1) && Blank(w2) && Blank(w3) && c != '\n'
    requires head != [] && !IsSpace(head[0])
    requires rest == [] || !IsSpace(rest[0])
    ensures var stmt := target + w1 + "=" + w2 + head + [c] + tail + w3;
      AssignedValueEnd(stmt + rest, target, head, tail) == Some(|stmt|)
  {
    var p := target + w1 + "=" + w2 + head + [c] + tail;
    var s := p + w3 + rest;
    var j := |target| + |w1| + 1 + |w2|;
    ValueAssigned(target, w1, w2, head, c, tail, w3, rest);
    ValueMatches(head, c, tail, w3 + rest);
    TrailingSpace(p, w3, rest);
    assert j + |head| + 1 + |tail| == |p|;
    AssignedValueHit(s, target, head, tail, j, |p| + |w3|);
  }

  lemma AssignedValueHit(s: string, target: string, head: string, tail: string, j: nat, n: nat)
    requires AssignedAt(s, target) == Some(j)
    requires var u := s[j..];
      && |head| < |u| && StartsWith(u, head) && u[|head|] != '\n'
      && StartsWith(u[|head| + 1..], tail)
    requires j + |head| + 1 + |tail| <= |s| && SkipSpace(s, j + |head| + 1 + |tail|) == n
    ensures AssignedValueEnd(s, target, head, tail) == Some(n)
  {
  }

  /** What `target\s*=\s*` matched: the target, whitespace, `=` and the
      whitespace after it, up to a character that is not whitespace. */
  lemma AssignedAtShape(s: string, target: string) returns (w1: string, w2: string)
    requires AssignedAt(s, target).Some?
    ensures var j := AssignedAt(s, target).value;
      && Blank(w1) && Blank(w2) && s[..j] == target + w1 + "=" + w2
      && (j == |s| || !IsSpace(s[j]))
  {
    var i := SkipSpace(s, |target|);
    var j := SkipSpace(s, i + 1);
    w1, w2 := s[|target|..i], s[i + 1..j];
    assert Blank(w1) by {
      forall k | 0 <= k < |w1| ensures IsSpace(w1[k]) {
        assert w1[k] == s[|target| + k];
      }
    }
    assert Blank(w2) by {
      forall k | 0 <= k < |w2| ensures IsSpace(w2[k]) {
        assert w2[k] == s[i + 1 + k];
      }
    }
    assert s[..|target|] == target;
    assert s[..j] == s[..|target|] + w1 + "=" + w2;
  }

  /** `SkipSpace` passes over whitespace only. */
  lemma SkippedBlank(s: string, i: nat)
    requires i <= |s|
    ensures Blank(s[i..SkipSpace(s, i)])
  {
    var w := s[i..SkipSpace(s, i)];
    forall k | 0 <= k < |w| ensures IsSpace(w[k]) {
      assert w[k] == s[i + k];
    }
  }

  /** The text up to `n`, cut where `head`, one character and `tail` lie. */
  lemma ValueParts(s: string, j: nat, head: string, tail: string, n: nat)
    requires j + |head| + 1 + |tail| <= n <= |s|
    requires StartsWith(s[j..], head) && StartsWith(s[j..][|head| + 1..], tail)
    ensures s[..n] == s[..j] + head + [s[j + |head|]] + tail + s[j + |head| + 1 + |tail|..n]
  {
    var h, m := |head|, j + |head| + 1 + |tail|;
    assert s[j..j + h] == s[j..][..h];
    assert s[j + h + 1..m] == s[j..][h + 1..][..|tail|];
    assert s[..n] == s[..j] + s[j..j + h] + [s[j + h]] + s[j + h + 1..m] + s[m..n];
  }

  /** What `target\s*=\s*head.tail\s*` matched: an assignment with any
      whitespace around `=`, one character but a newline between `head` and
      `tail`, and all the whitespace after it. */
  lemma AssignedValueEndShape(s: string, target: string, head: string, tail: string)
    returns (w1: string, w2: string, c: char, w3: string)
    requires AssignedValueEnd(s, target, head, tail).Some?
    ensures var n := AssignedValueEnd(s, target, head, tail).value;
      && Blank(w1) && Blank(w2) && Blank(w3) && c != '\n'
      && s[..n] == target + w1 + "=" + w2 + head + [c] + tail + w3
      && (n == |s| || !IsSpace(s[n]))
  {
    var j := AssignedAt(s, target).value;
    w1, w2 := AssignedAtShape(s, target);
    var m := j + |head| + 1 + |tail|;
    var n := SkipSpace(s, m);
    c, w3 := s[j + |head|], s[m..n];
    SkippedBlank(s, m);
    ValueParts(s, j, head, tail, n);
  }

  /** A match of the secret-name pattern is exactly that statement with all
      the whitespace after it. */
  lemma SecretAtOnlyStatement(s: string)
    requires SecretAt(s).Some?
    ensures var n := SecretAt(s).value.len;
      && (n == |s| || !IsSpace(s[n]))
      && exists w1, w2, c, w3 :: Blank(w1) && Blank(w2) && Blank(w3) && c != '\n'
           && s[..n] == SecretStatement(w1, w2, c, w3)
  {
    var w1, w2, c, w3 := AssignedValueEndShape(s, SecretTarget, SecretValueHead, SecretValueTail);
    assert s[..SecretAt(s).value.len] == SecretStatement(w1, w2, c, w3);
  }

  /** The secret-name pattern matches the statement and all the whitespace
      after it. */
  lemma SecretMatches(w1: string, w2: string, c: char, w3: string, rest: string)
    requires Blank(w1) && Blank(w2) && Blank(w3) && c != '\n'
    requires rest == [] || !IsSpace(rest[0])
    ensures SecretAt(SecretStatement(w1, w2, c, w3) + rest) == Some(Hit(|SecretStatement(w1, w2, c, w3)|, [], []))
  {
    assert !IsSpace(SecretValueHead[0]);
    AssignedValueMatches(SecretTarget, w1, w2, SecretValueHead, c, SecretValueTail, w3, rest);
  }

  /** A match that is deleted and collects nothing is skipped by the scan. */
  lemma SubSkipsDeleted(stmt: string, rest: string, at: string -> Option<Hit>)
    requires stmt != [] && at(stmt + rest) == Some(Hit(|stmt|, [], []))
    ensures Sub(stmt + rest, at) == Sub(rest, at)
  {
    assert (stmt + rest)[|stmt|..] == rest;
  }

  /** The secret-name statement and all the whitespace after it are
      deleted, and the scan goes on after them. */
  lemma SecretStatementDeleted(w1: string, w2: string, c: char, w3: string, rest: string)
    requires Blank(w1) && Blank(w2) && Blank(w3) && c != '\n'
    requires rest == [] || !IsSpace(rest[0])
    ensures Sub(SecretStatement(w1, w2, c, w3) + rest, SecretAt) == Sub(rest, SecretAt)
  {
    SecretMatches(w1, w2, c, w3, rest);
    SubSkipsDeleted(SecretStatement(w1, w2, c, w3), rest, SecretAt);
  }

  /** The option the secret-name idiom reads, quotes included. */
  const PipelineNameOption: string := "'PIPELINE_NAME'"

  /** The secret-name statement as blocks write it, before the rewrite:
      `secret_name = "password-" + kwargs.get('PIPELINE_NAME')`. */
  const SecretLead: string := "secret_name = \"password-\" + "

  lemma PipelineName()
    ensures EnvName(PipelineNameOption) == "PIPELINE_NAME"
  {
    var q := PipelineNameOption;
    assert TrimLeft(q[1..], IsQuote) == q[1..];
    assert TrimLeft(q, IsQuote) == q[1..];
    assert q[1..][..|q| - 2] == "PIPELINE_NAME";
    assert TrimRight("PIPELINE_NAME", IsQuote) == "PIPELINE_NAME";
    assert TrimRight(q[1..], IsQuote) == "PIPELINE_NAME";
    assert Upper("PIPELINE_NAME") == "PIPELINE_NAME";
  }

  /** The lookup's rewrite is the secret-name statement's value, read with
      `.` for the unescaped dot. */
  lemma RewrittenLeadIsStatement(w3: string)
    ensures SecretLead + GetenvSingle("PIPELINE_NAME") + w3 == SecretStatement(" ", " ", '.', w3)
  {
    GetenvPipelineName();
    LeadThroughHead();
    Splice(SecretLead, "os", ['.'], SecretValueTail, w3, SecretTarget + " " + "=" + " " + SecretValueHead);
  }

  lemma GetenvPipelineName()
    ensures GetenvSingle("PIPELINE_NAME") == "os" + ['.'] + SecretValueTail
  {
    assert GetenvSingle("PIPELINE_NAME") == "os.getenv('PIPELINE_NAME')";
  }

  lemma LeadThroughHead()
    ensures SecretLead + "os" == SecretTarget + " " + "=" + " " + SecretValueHead
  {
  }

  lemma Splice(a: string, x: string, c: string, t: string, w: string, e: string)
    requires a + x == e
    ensures a + (x + c + t) + w == e + c + t + w
  {
  }

  lemma Regroup(a: string, b: string, c: string, d: string)
    ensures a + (b + (c + d)) == a + b + c + d
  {
  }

  lemma LeadLacksLookup()
    ensures forall i :: 0 <= i < |SecretLead| ==> SecretLead[i] != 'k'
  {
  }

  lemma PipelineNameOptionMatches()
    ensures PipelineNameOption != [] && ')' !in PipelineNameOption
  {
  }

  /** No lookup starts inside text without a `k`. */
  lemma NoLookupIn(a: string, t: string)
    requires forall i :: 0 <= i < |a| ==> a[i] != 'k'
    ensures forall i :: 0 <= i < |a| ==> KwargsAt((a + t)[i..]) == None
  {
    forall i | 0 <= i < |a| ensures KwargsAt((a + t)[i..]) == None {
      assert (a + t)[i..][0] == a[i];
    }
  }

  /** The lookup rewrite does not put whitespace at the front of text that
      does not start with it. */
  lemma KwargsTextStart(rest: string)
    requires rest == [] || !IsSpace(rest[0])
    ensures var t := Sub(rest, KwargsAt).text; t == [] || !IsSpace(t[0])
  {
  }

  /** The lookup inside the secret-name statement is rewritten first and its
      name collected; the statement it produced is then deleted, so the
      rewritten code no longer reads `PIPELINE_NAME` while the collected
      names still hold it. */
  lemma PipelineNameCollectedThoughDeleted(w3: string, rest: string)
    requires Blank(w3) && (rest == [] || !IsSpace(rest[0]))
    ensures var code := SecretLead + KwargsLookup(PipelineNameOption) + w3 + rest;
      var kr := Sub(rest, KwargsAt);
      var pw := Sub(Sub(kr.text, SecretAt).text, PasswordAt);
      RewriteCode(code) == Rewrite(pw.text, ["PIPELINE_NAME"] + kr.vars + pw.vars)
  {
    var code := SecretLead + KwargsLookup(PipelineNameOption) + w3 + rest;
    var kr := Sub(rest, KwargsAt);
    var stmt := SecretStatement(" ", " ", '.', w3);
    assert Sub(code, KwargsAt) == Rewrite(stmt + kr.text, ["PIPELINE_NAME"] + kr.vars) by {
      var call := KwargsLookup(PipelineNameOption);
      assert code == SecretLead + (call + (w3 + rest)) by {
        Regroup(SecretLead, call, w3, rest);
      }
      assert Sub(w3 + rest, KwargsAt) == Rewrite(w3 + kr.text, kr.vars) by {
        NoLookupIn(w3, rest);
        SubSkip(w3, rest, KwargsAt);
      }
      assert Sub(call + (w3 + rest), KwargsAt)
        == Rewrite(GetenvSingle("PIPELINE_NAME") + (w3 + kr.text), ["PIPELINE_NAME"] + kr.vars) by {
        PipelineName();
        PipelineNameOptionMatches();
        KwargsLookupRewritten(PipelineNameOption, w3 + rest);
      }
      assert Sub(code, KwargsAt)
        == Rewrite(SecretLead + (GetenvSingle("PIPELINE_NAME") + (w3 + kr.text)), ["PIPELINE_NAME"] + kr.vars) by {
        LeadLacksLookup();
        NoLookupIn(SecretLead, call + (w3 + rest));
        SubSkip(SecretLead, call + (w3 + rest), KwargsAt);
      }
      assert SecretLead + (GetenvSingle("PIPELINE_NAME") + (w3 + kr.text)) == stmt + kr.text by {
        Regroup(SecretLead, GetenvSingle("PIPELINE_NAME"), w3, kr.text);
        RewrittenLeadIsStatement(w3);
      }
    }
    assert Sub(stmt + kr.text, SecretAt) == Sub(kr.text, SecretAt) by {
      KwargsTextStart(rest);
      SecretStatementDeleted(" ", " ", '.', w3, kr.text);
    }
  }

  /** `password = get_secret_value(secret_name)` with the whitespace runs
      `w1` and `w2` around `=`. */
  function PasswordStatement(w1: string, w2: string): string {
    PasswordTarget + w1 + "=" + w2 + PasswordFetch
  }

  /** The password pattern matches the whole statement. */
  lemma PasswordMatches(w1: string, w2: string, rest: string)
    requires Blank(w1) && Blank(w2)
    ensures PasswordAt(PasswordStatement(w1, w2) + rest) == Some(Hit(|PasswordStatement(w1, w2)|, PasswordRead, ["PASSWORD"]))
  {
    var s := PasswordTarget + w1 + "=" + w2 + PasswordFetch + rest;
    assert PasswordStatement(w1, w2) + rest == s;
    FetchStartsSolid();
    Assignment(PasswordTarget, w1, w2, PasswordFetch, rest);
    var j := |PasswordTarget| + |w1| + 1 + |w2|;
    assert s[j..][..|PasswordFetch|] == PasswordFetch;
  }

  /** The password fetch opens with a character `\s` does not match. */
  lemma FetchStartsSolid()
    ensures PasswordFetch != [] && !IsSpace(PasswordFetch[0])
  {
    assert PasswordFetch[0] == 'g';
  }

  /** A match of the password pattern is exactly the password statement. */
  lemma PasswordAtOnlyStatement(s: string)
    requires PasswordAt(s).Some?
    ensures exists w1, w2 :: Blank(w1) && Blank(w2) && s[..PasswordAt(s).value.len] == PasswordStatement(w1, w2)
  {
    var j := AssignedAt(s, PasswordTarget).value;
    var w1, w2 := AssignedAtShape(s, PasswordTarget);
    var n := j + |PasswordFetch|;
    assert s[j..n] == s[j..][..|PasswordFetch|] == PasswordFetch;
    assert s[..n] == s[..j] + s[j..n];
    assert s[..n] == PasswordStatement(w1, w2);
  }

  /** The password fetch becomes the read of `PASSWORD`, and `PASSWORD` is
      the first name collected after it. */
  lemma PasswordStatementRewritten(w1: string, w2: string, rest: string)
    requires Blank(w1) && Blank(w2)
    ensures Sub(PasswordStatement(w1, w2) + rest, PasswordAt)
      == Rewrite(PasswordRead + Sub(rest, PasswordAt).text, ["PASSWORD"] + Sub(rest, PasswordAt).vars)
  {
    var s := PasswordStatement(w1, w2) + rest;
    PasswordMatches(w1, w2, rest);
    assert s[|PasswordStatement(w1, w2)|..] == rest;
  }

  /** Deleting the secret-name statements collects no variable. */
  lemma {:induction false} SecretCollectsNothing(s: string)
    ensures Sub(s, SecretAt).vars == []
    decreases |s|
  {
    if s != [] {
      match SecretAt(s)
      case Some(h) => SecretCollectsNothing(s[h.len..]);
      case None => SecretCollectsNothing(s[1..]);
    }
  }

  /** The password rewrite collects only `PASSWORD`, once per rewritten
      statement. */
  lemma {:induction false} PasswordCollectsOnlyPassword(s: string)
    ensures forall k :: 0 <= k < |Sub(s, PasswordAt).vars| ==> Sub(s, PasswordAt).vars[k] == "PASSWORD"
    decreases |s|
  {
    if s != [] {
      match PasswordAt(s)
      case Some(h) => PasswordCollectsOnlyPassword(s[h.len..]);
      case None => PasswordCollectsOnlyPassword(s[1..]);
    }
  }

  /** The result of the three substitutions in order: the rewritten code and
      the names appended by the callbacks, the `kwargs.get` names first. */
  function RewriteCode(code: string): Rewrite {
    var kw := Sub(code, KwargsAt);
    var pw := Sub(Sub(kw.text, SecretAt).text, PasswordAt);
    Rewrite(pw.text, kw.vars + pw.vars)
  }

  /** The names `RewriteCode` collects: those of the `kwargs.get` lookups,
      in order, then one `PASSWORD` per rewritten password fetch. */
  lemma RewriteCodeVars(code: string)
    ensures var k := Sub(code, KwargsAt).vars;
      var r := RewriteCode(code).vars;
      && r[..|k|] == k
      && forall i :: |k| <= i < |r| ==> r[i] == "PASSWORD"
  {
    var kw := Sub(code, KwargsAt);
    var secret := Sub(kw.text, SecretAt).text;
    var pw := Sub(secret, PasswordAt);
    PasswordCollectsOnlyPassword(secret);
    ghost var passwords := pw.vars;
    assert forall i :: 0 <= i < |passwords| ==> passwords[i] == "PASSWORD";
    assert RewriteCode(code).vars == kw.vars + passwords;
    assert (kw.vars + passwords)[..|kw.vars|] == kw.vars;
  }

  /** `replace_code_patterns`: the three substitutions in order, the
      callbacks appending to one list. */
  method ReplaceCodePatterns(code: string) returns (modified: string, envVars: seq<string>)
    ensures modified == RewriteCode(code).text && envVars == RewriteCode(code).vars
    ensures envVars[..|Sub(code, KwargsAt).vars|] == Sub(code, KwargsAt).vars
    ensures forall k :: |Sub(code, KwargsAt).vars| <= k < |envVars| ==> envVars[k] == "PASSWORD"
  {
    envVars := [];
    var kw := Sub(code, KwargsAt);
    envVars := envVars + kw.vars;
    modified := kw.text;
    var secret := Sub(modified, SecretAt);
    modified := secret.text;
    var pw := Sub(modified, PasswordAt);
    envVars := envVars + pw.vars;
    modified := pw.text;
    RewriteCodeVars(code);
  }
}
