/** The code linter of utils/linter.py: add the imports of known aliases,
    run the import fixer and the formatter, and drop `if` headers left
    without a body. The Python parser, `autoimport` and `black` are not
    part of this model: the identifiers the parser finds are an input, and
    the two tools are function parameters. */
module Linter {
  import opened Wrappers
  import Text

  /** `import <module> as <alias>`. */
  function ImportLine(module_: string, alias: string): string {
    "import " + module_ + " as " + alias
  }

  // ---------------------------------------------------------------------
  // Dangling `if` headers

  /** `if ...:` on a line of its own. */
  predicate IsIfHeader(line: string) {
    Text.StartsWith(Text.Strip(line), "if ") && Text.EndsWith(Text.Strip(line), ":")
  }

  /** Line `i` is an `if` header followed by a blank line or by nothing. */
  predicate Dangling(lines: seq<string>, i: nat)
    requires i < |lines|
  {
    IsIfHeader(lines[i]) && (i + 1 >= |lines| || Text.Strip(lines[i + 1]) == "")
  }

  /** Which lines are dangling headers. */
  function DanglingFlags(lines: seq<string>): (r: seq<bool>)
    ensures |r| == |lines| && forall i :: 0 <= i < |lines| ==> r[i] == Dangling(lines, i)
  {
    seq(|lines|, i requires 0 <= i < |lines| => Dangling(lines, i))
  }

  /** The lines kept from line `i` on, when line `i` is looked at, where
      `d` flags the dangling headers. A dangling header is dropped with the
      line after it, which is not looked at. */
  function CleanFrom(lines: seq<string>, d: seq<bool>, i: nat): seq<string>
    requires |d| == |lines|
    decreases |lines| - i
  {
    if i >= |lines| then []
    else if d[i] then CleanFrom(lines, d, i + 2)
    else [lines[i]] + CleanFrom(lines, d, i + 1)
  }

  /** The indices of the lines `CleanFrom` keeps. */
  function KeptFrom(d: seq<bool>, i: nat): (r: seq<nat>)
    ensures forall k :: 0 <= k < |r| ==> i <= r[k] < |d|
    ensures forall k, m :: 0 <= k < m < |r| ==> r[k] < r[m]
    decreases |d| - i
  {
    if i >= |d| then []
    else if d[i] then KeptFrom(d, i + 2)
    else
      var rest := KeptFrom(d, i + 1);
      assert forall k :: 0 <= k < |rest| ==> i < rest[k];
      [i] + rest
  }

  /** The lines at the given indices, in order. */
  function Select(lines: seq<string>, idx: seq<nat>): (r: seq<string>)
    requires forall k :: 0 <= k < |idx| ==> idx[k] < |lines|
    ensures |r| == |idx| && forall k :: 0 <= k < |idx| ==> r[k] == lines[idx[k]]
  {
    seq(|idx|, k requires 0 <= k < |idx| => lines[idx[k]])
  }

  /** The kept lines are the input lines at strictly increasing indices: the
      output is a subsequence of the input, in order. */
  lemma {:induction false} CleanIsSubsequence(lines: seq<string>, d: seq<bool>, i: nat)
    requires |d| == |lines|
    ensures CleanFrom(lines, d, i) == Select(lines, KeptFrom(d, i))
    decreases |lines| - i
  {
    if i < |lines| {
      if d[i] {
        CleanIsSubsequence(lines, d, i + 2);
      } else {
        CleanIsSubsequence(lines, d, i + 1);
        var rest := KeptFrom(d, i + 1);
        assert KeptFrom(d, i) == [i] + rest;
        assert Select(lines, [i] + rest) == [lines[i]] + Select(lines, rest);
      }
    }
  }

  /** Every dropped index is flagged, or comes right after a flagged one. */
  lemma {:induction false} DroppedFlagged(d: seq<bool>, i: nat)
    ensures forall j :: i <= j < |d| && j !in KeptFrom(d, i) ==> d[j] || (j > 0 && d[j - 1])
    decreases |d| - i
  {
    if i < |d| {
      var next := if d[i] then i + 2 else i + 1;
      DroppedFlagged(d, next);
      forall j | i <= j < |d| && j !in KeptFrom(d, i)
        ensures d[j] || (j > 0 && d[j - 1])
      {
        if j >= next {
          assert j !in KeptFrom(d, next);
        }
      }
    }
  }

  /** No kept index is flagged. */
  lemma {:induction false} KeptUnflagged(d: seq<bool>, i: nat)
    ensures forall j :: j in KeptFrom(d, i) ==> j < |d| && !d[j]
    decreases |d| - i
  {
    if i < |d| {
      if d[i] {
        KeptUnflagged(d, i + 2);
      } else {
        KeptUnflagged(d, i + 1);
      }
    }
  }

  /** Every dropped line is a dangling header, or the line right after one
      (which `Dangling` makes blank). */
  lemma DroppedLines(lines: seq<string>)
    ensures forall j :: 0 <= j < |lines| && j !in KeptFrom(DanglingFlags(lines), 0) ==>
      Dangling(lines, j) || (j > 0 && Dangling(lines, j - 1))
  {
    var d := DanglingFlags(lines);
    DroppedFlagged(d, 0);
    forall j | 0 <= j < |lines| && j !in KeptFrom(d, 0)
      ensures Dangling(lines, j) || (j > 0 && Dangling(lines, j - 1))
    {
      if !d[j] {
        assert d[j - 1];
      }
    }
  }

  /** No kept line is a dangling header. */
  lemma KeptNotDangling(lines: seq<string>)
    ensures forall j :: j in KeptFrom(DanglingFlags(lines), 0) ==> j < |lines| && !Dangling(lines, j)
  {
    KeptUnflagged(DanglingFlags(lines), 0);
  }

  /** With nothing flagged every line is kept. */
  lemma {:induction false} NoneFlaggedKeepsAll(lines: seq<string>, d: seq<bool>, i: nat)
    requires |d| == |lines| && i <= |lines|
    requires forall j :: 0 <= j < |d| ==> !d[j]
    ensures CleanFrom(lines, d, i) == lines[i..]
    decreases |lines| - i
  {
    if i < |lines| {
      NoneFlaggedKeepsAll(lines, d, i + 1);
      assert lines[i..] == [lines[i]] + lines[i + 1..];
    }
  }

  /** `__remove_dangling_ifs` on the lines of `code`. */
  function Cleaned(code: string): string {
    var lines := Text.Split(code, '\n');
    Text.Join(CleanFrom(lines, DanglingFlags(lines), 0), "\n")
  }

  /** The cleaned code is the code's lines at the kept indices, joined. */
  lemma CleanedLines(code: string)
    ensures var lines := Text.Split(code, '\n');
      Cleaned(code) == Text.Join(Select(lines, KeptFrom(DanglingFlags(lines), 0)), "\n")
  {
    var lines := Text.Split(code, '\n');
    CleanIsSubsequence(lines, DanglingFlags(lines), 0);
  }

  /** Code without dangling headers comes back unchanged. */
  lemma CleanedUnchanged(code: string)
    requires forall j :: 0 <= j < |Text.Split(code, '\n')| ==> !Dangling(Text.Split(code, '\n'), j)
    ensures Cleaned(code) == code
  {
    var lines := Text.Split(code, '\n');
    NoneFlaggedKeepsAll(lines, DanglingFlags(lines), 0);
    assert lines[0..] == lines;
    Text.JoinSplit(code, '\n');
  }

  // ---------------------------------------------------------------------
  // The linter

  class Linter {
    /** `alias_dict`: alias to module. */
    const aliases: map<string, string>

    constructor (aliases: map<string, string>)
      ensures this.aliases == aliases
    {
      this.aliases := aliases;
    }

    /** `__find_missing_imports`: the import of every identifier of the code
        (`names`, as the parser's walk yields them) that is a known alias. */
    method FindMissingImports(names: seq<string>) returns (missing: set<string>)
      ensures missing == set id | id in names && id in aliases :: ImportLine(aliases[id], id)
    {
      missing := {};
      var i := 0;
      while i < |names|
        invariant 0 <= i <= |names|
        invariant missing == set id | id in names[..i] && id in aliases :: ImportLine(aliases[id], id)
      {
        assert names[..i + 1] == names[..i] + [names[i]];
        if names[i] in aliases {
          missing := missing + {ImportLine(aliases[names[i]], names[i])};
        }
        i := i + 1;
      }
      assert names[..|names|] == names;
    }

    /** `__remove_dangling_ifs`: the loop with the `skip_next` flag. */
    static method RemoveDanglingIfs(code: string) returns (r: string)
      ensures r == Cleaned(code)
    {
      var lines := Text.Split(code, '\n');
      ghost var d := DanglingFlags(lines);
      var clean: seq<string> := [];
      var skipNext := false;
      var i := 0;
      while i < |lines|
        invariant 0 <= i <= |lines|
        invariant clean + CleanFrom(lines, d, if skipNext then i + 1 else i) == CleanFrom(lines, d, 0)
      {
        if skipNext {
          skipNext := false;
        } else if Dangling(lines, i) {
          assert d[i];
          skipNext := true;
        } else {
          assert !d[i];
          assert clean + CleanFrom(lines, d, i) == (clean + [lines[i]]) + CleanFrom(lines, d, i + 1);
          clean := clean + [lines[i]];
        }
        i := i + 1;
      }
      assert clean + [] == clean;
      r := Text.Join(clean, "\n");
    }

    /** `__fix_code`: the formatter's output, or the code unchanged when the
        formatter fails (the `finally` clause returns `code`). */
    static function FixCode(code: string, format: string -> Option<string>): (r: string)
      ensures format(code).Some? ==> r == format(code).value
      ensures format(code).None? ==> r == code
    {
      match format(code)
      case Some(formatted) => formatted
      case None => code
    }

    /** `process`: the missing imports, one per line in the set's iteration
        order, then a blank line and the code; then the import fixer, the
        formatter and the removal of dangling headers. */
    method Process(code: string, names: seq<string>, fixImports: string -> string,
                   format: string -> Option<string>) returns (r: string)
      ensures exists order: seq<string> ::
        && |order| == |set id | id in names && id in aliases :: ImportLine(aliases[id], id)|
        && (forall l :: l in order <==> l in set id | id in names && id in aliases :: ImportLine(aliases[id], id))
        && r == Cleaned(FixCode(fixImports(Text.Join(order, "\n") + "\n\n" + code), format))
    {
      var missing := FindMissingImports(names);
      var order := Ordered(missing);
      var withImports := Text.Join(order, "\n") + "\n\n" + code;
      r := RemoveDanglingIfs(FixCode(fixImports(withImports), format));
    }

    /** The elements of a set, each once, in an order the set chooses. */
    static method Ordered(s: set<string>) returns (order: seq<string>)
      ensures |order| == |s| && forall l :: l in order <==> l in s
    {
      order := [];
      var rest := s;
      while rest != {}
        invariant rest <= s
        invariant |order| + |rest| == |s|
        invariant forall l :: l in order <==> l in s && l !in rest
      {
        var l :| l in rest;
        order := order + [l];
        rest := rest - {l};
      }
    }
  }
}
