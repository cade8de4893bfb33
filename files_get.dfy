/** The telemetry de-duplication of routers/files/files_get.py (`telemetry`):
    when a block has both a normal and a `failed_` telemetry entry, the one
    with the older last execution date is deleted; on equal dates the
    `failed_` entry goes. Fetching and decoding the telemetry files is not
    part of this model: the entries are an input, and `keys` is the
    dictionary's key order. Dates are read by `parseDate`, which fails on a
    date it cannot parse. */
module FilesGet {
  import opened Wrappers
  import Text

  /** A block's telemetry entry: its last execution date and the metrics
      passed through. */
  datatype Telemetry = Telemetry(lastExecutionDate: string, metrics: map<string, string>)

  type Table = map<string, Telemetry>

  const FailedPrefix := "failed_"

  /** `[x[7:] for x in keys if "failed_" in x]`. */
  function FailedKeys(keys: seq<string>): (r: seq<string>)
    ensures |r| <= |keys|
  {
    if keys == [] then []
    else (if Text.Contains(keys[0], FailedPrefix) then [Drop7(keys[0])] else []) + FailedKeys(keys[1..])
  }

  /** `x[7:]`. */
  function Drop7(x: string): string {
    if |x| >= 7 then x[7..] else ""
  }

  /** `[x for x in keys if "failed_" not in x]`. */
  function NormalKeys(keys: seq<string>): (r: seq<string>)
    ensures |r| <= |keys|
  {
    if keys == [] then []
    else (if Text.Contains(keys[0], FailedPrefix) then [] else [keys[0]]) + NormalKeys(keys[1..])
  }

  // ---------------------------------------------------------------------
  // The nested loop, step by step

  /** The body of the nested loop for a failed base `f` equal to the normal
      key: read both dates, delete the older entry, the `failed_` one on a
      tie. A missing entry or an unreadable date fails. */
  function Clash(t: Table, f: string, parseDate: string -> Option<int>): Result<Table, string> {
    var fk := FailedPrefix + f;
    if fk !in t then Failure("KeyError")
    else if parseDate(t[fk].lastExecutionDate).None? then Failure("ValueError")
    else if f !in t then Failure("KeyError")
    else if parseDate(t[f].lastExecutionDate).None? then Failure("ValueError")
    else if parseDate(t[fk].lastExecutionDate).value > parseDate(t[f].lastExecutionDate).value then Success(t - {f})
    else Success(t - {fk})
  }

  /** The pairs the nested loop visits, in order. */
  function Row(f: string, normal: seq<string>): seq<(string, string)> {
    if normal == [] then [] else [(f, normal[0])] + Row(f, normal[1..])
  }

  function Pairs(failed: seq<string>, normal: seq<string>): seq<(string, string)> {
    if failed == [] then [] else Row(failed[0], normal) + Pairs(failed[1..], normal)
  }

  /** The loop body for the pair `(f, n)`. */
  function Step(t: Table, p: (string, string), parseDate: string -> Option<int>): Result<Table, string> {
    if p.0 == p.1 then Clash(t, p.0, parseDate) else Success(t)
  }

  /** Running the loop body over `ps` from the table `t`. */
  function Steps(t: Table, ps: seq<(string, string)>, parseDate: string -> Option<int>): Result<Table, string> {
    if ps == [] then Success(t)
    else
      match Step(t, ps[0], parseDate)
      case Failure(e) => Failure(e)
      case Success(t') => Steps(t', ps[1..], parseDate)
  }

  /** The body of the nested loop (lines 144-152) for `f == n`. */
  method DeleteOlder(t: Table, f: string, parseDate: string -> Option<int>) returns (r: Result<Table, string>)
    ensures r == Clash(t, f, parseDate)
  {
    var fk := FailedPrefix + f;
    if fk !in t {
      return Failure("KeyError");
    }
    var fDate := parseDate(t[fk].lastExecutionDate);
    if fDate.None? {
      return Failure("ValueError");
    }
    if f !in t {
      return Failure("KeyError");
    }
    var nDate := parseDate(t[f].lastExecutionDate);
    if nDate.None? {
      return Failure("ValueError");
    }
    if fDate.value > nDate.value {
      r := Success(t - {f});
    } else {
      r := Success(t - {fk});
    }
  }

  /** Lines 139-152: the key lists, then the nested loop deleting entries
      from the table in place. */
  method Deduplicate(t0: Table, keys: seq<string>, parseDate: string -> Option<int>) returns (r: Result<Table, string>)
    ensures r == Steps(t0, Pairs(FailedKeys(keys), NormalKeys(keys)), parseDate)
  {
    var failed := FailedKeys(keys);
    var normal := NormalKeys(keys);
    var t := t0;
    var i := 0;
    assert failed[0..] == failed;
    while i < |failed|
      invariant 0 <= i <= |failed|
      invariant Steps(t0, Pairs(failed, normal), parseDate) == Steps(t, Pairs(failed[i..], normal), parseDate)
    {
      var f := failed[i];
      assert failed[i..][1..] == failed[i + 1..];
      StepsAppend(t, Row(f, normal), Pairs(failed[i + 1..], normal), parseDate);
      var row := MatchRow(t, f, normal, parseDate);
      if row.Failure? {
        return Failure(row.error);
      }
      t := row.value;
      i := i + 1;
    }
    assert failed[|failed|..] == [];
    r := Success(t);
  }

  /** The inner loop of lines 143-152 for one failed base `f`. */
  method MatchRow(t0: Table, f: string, normal: seq<string>, parseDate: string -> Option<int>) returns (r: Result<Table, string>)
    ensures r == Steps(t0, Row(f, normal), parseDate)
  {
    var t := t0;
    var j := 0;
    assert normal[0..] == normal;
    while j < |normal|
      invariant 0 <= j <= |normal|
      invariant Steps(t0, Row(f, normal), parseDate) == Steps(t, Row(f, normal[j..]), parseDate)
    {
      var n := normal[j];
      assert normal[j..][1..] == normal[j + 1..];
      StepsCons(t, (f, n), Row(f, normal[j + 1..]), parseDate);
      if f == n {
        var next := DeleteOlder(t, f, parseDate);
        if next.Failure? {
          return Failure(next.error);
        }
        t := next.value;
      }
      j := j + 1;
    }
    assert normal[|normal|..] == [];
    r := Success(t);
  }

  lemma StepsCons(t: Table, p: (string, string), rest: seq<(string, string)>, parseDate: string -> Option<int>)
    ensures var next := Step(t, p, parseDate);
      && (next.Failure? ==> Steps(t, [p] + rest, parseDate) == Failure(next.error))
      && (next.Success? ==> Steps(t, [p] + rest, parseDate) == Steps(next.value, rest, parseDate))
  {
    assert ([p] + rest)[0] == p && ([p] + rest)[1..] == rest;
  }

  // ---------------------------------------------------------------------
  // The result, stated per key

  /** The table is what the source expects: `keys` lists its keys once
      each, every key containing `failed_` starts with it, and every date
      parses. */
  ghost predicate WellFormed(t: Table, keys: seq<string>, parseDate: string -> Option<int>) {
    && Distinct(keys)
    && (forall k :: k in keys <==> k in t)
    && (forall k :: k in t && Text.Contains(k, FailedPrefix) ==> Text.StartsWith(k, FailedPrefix))
    && (forall k :: k in t ==> parseDate(t[k].lastExecutionDate).Some?)
  }

  function Date(t: Table, k: string, parseDate: string -> Option<int>): int
    requires k in t && parseDate(t[k].lastExecutionDate).Some?
  {
    parseDate(t[k].lastExecutionDate).value
  }

  /** The entry `k` loses to its counterpart: a normal entry whose `failed_`
      entry is newer, or a `failed_` entry whose normal entry is as new or
      newer. */
  predicate Beaten(t: Table, k: string, parseDate: string -> Option<int>)
    requires forall k :: k in t ==> parseDate(t[k].lastExecutionDate).Some?
  {
    if !Text.Contains(k, FailedPrefix) then
      FailedPrefix + k in t && k in t && Date(t, FailedPrefix + k, parseDate) > Date(t, k, parseDate)
    else
      var b := Drop7(k);
      && Text.StartsWith(k, FailedPrefix) && b in t && k in t && !Text.Contains(b, FailedPrefix)
      && Date(t, k, parseDate) <= Date(t, b, parseDate)
  }

  /** For a well-formed table the loop succeeds, deletes exactly the beaten
      entries and changes no value. */
  lemma DeduplicateResult(t0: Table, keys: seq<string>, parseDate: string -> Option<int>)
    requires WellFormed(t0, keys, parseDate)
    ensures var r := Steps(t0, Pairs(FailedKeys(keys), NormalKeys(keys)), parseDate);
      && r.Success?
      && (forall k :: k in r.value <==> k in t0 && !Beaten(t0, k, parseDate))
      && (forall k :: k in r.value ==> r.value[k] == t0[k])
  {
    var F, N := FailedKeys(keys), NormalKeys(keys);
    KeyListsFacts(t0, keys, parseDate);
    StepsPairs(t0, F, N, parseDate);
    var L := Losers(t0, F, N, parseDate);
    forall k ensures k in L <==> k in t0 && Beaten(t0, k, parseDate) {
      LoserIffBeaten(t0, keys, parseDate, k);
    }
  }

  /** Afterwards no block has both a normal and a `failed_` entry. */
  lemma NoBlockTwice(t0: Table, keys: seq<string>, parseDate: string -> Option<int>, b: string)
    requires WellFormed(t0, keys, parseDate)
    requires !Text.Contains(b, FailedPrefix)
    ensures var r := Steps(t0, Pairs(FailedKeys(keys), NormalKeys(keys)), parseDate);
      r.Success? && !(b in r.value && FailedPrefix + b in r.value)
  {
    DeduplicateResult(t0, keys, parseDate);
    var k := FailedPrefix + b;
    if b in t0 && k in t0 {
      PrefixContains(b);
      assert Drop7(k) == b;
      assert Text.StartsWith(k, FailedPrefix);
    }
  }

  /** On equal dates the normal entry stays and the `failed_` entry goes. */
  lemma TieKeepsNormal(t0: Table, keys: seq<string>, parseDate: string -> Option<int>, b: string)
    requires WellFormed(t0, keys, parseDate)
    requires !Text.Contains(b, FailedPrefix)
    requires b in t0 && FailedPrefix + b in t0
    requires Date(t0, b, parseDate) == Date(t0, FailedPrefix + b, parseDate)
    ensures var r := Steps(t0, Pairs(FailedKeys(keys), NormalKeys(keys)), parseDate);
      r.Success? && b in r.value && FailedPrefix + b !in r.value
  {
    DeduplicateResult(t0, keys, parseDate);
    var k := FailedPrefix + b;
    PrefixContains(b);
    assert Drop7(k) == b;
    assert Text.StartsWith(k, FailedPrefix);
  }

  // ---------------------------------------------------------------------
  // Proof

  lemma PrefixContains(b: string)
    ensures Text.Contains(FailedPrefix + b, FailedPrefix)
  {
    assert Text.OccursAt(FailedPrefix + b, FailedPrefix, 0);
  }

  /** The entry a clash deletes. */
  function Loser(t: Table, f: string, parseDate: string -> Option<int>): string
    requires f in t && FailedPrefix + f in t
    requires forall k :: k in t ==> parseDate(t[k].lastExecutionDate).Some?
  {
    if Date(t, FailedPrefix + f, parseDate) > Date(t, f, parseDate) then f else FailedPrefix + f
  }

  predicate Paired(t: Table, failed: seq<string>, normal: seq<string>) {
    forall f :: f in failed && f in normal ==> f in t && FailedPrefix + f in t
  }

  function Losers(t: Table, failed: seq<string>, normal: seq<string>, parseDate: string -> Option<int>): set<string>
    requires Paired(t, failed, normal)
    requires forall k :: k in t ==> parseDate(t[k].lastExecutionDate).Some?
  {
    set f | f in failed && f in normal :: Loser(t, f, parseDate)
  }

  lemma {:induction false} StepsAppend(t: Table, a: seq<(string, string)>, b: seq<(string, string)>, parseDate: string -> Option<int>)
    ensures Steps(t, a + b, parseDate) ==
      match Steps(t, a, parseDate)
      case Failure(e) => Failure(e)
      case Success(t') => Steps(t', b, parseDate)
  {
    if a != [] {
      assert (a + b)[0] == a[0] && (a + b)[1..] == a[1..] + b;
      var next := Step(t, a[0], parseDate);
      if next.Success? {
        StepsAppend(next.value, a[1..], b, parseDate);
      }
    } else {
      assert a + b == b;
    }
  }

  /** One row of the loop: the clash with the base's normal key, if any. */
  lemma {:induction false} StepsRow(t: Table, f: string, normal: seq<string>, parseDate: string -> Option<int>)
    requires forall i, j :: 0 <= i < j < |normal| ==> normal[i] != normal[j]
    requires f in normal ==> f in t && FailedPrefix + f in t
    requires forall k :: k in t ==> parseDate(t[k].lastExecutionDate).Some?
    ensures f in normal ==> Steps(t, Row(f, normal), parseDate) == Success(t - {Loser(t, f, parseDate)})
    ensures f !in normal ==> Steps(t, Row(f, normal), parseDate) == Success(t)
  {
    if normal != [] {
      if f == normal[0] {
        var t' := t - {Loser(t, f, parseDate)};
        assert f !in normal[1..];
        StepsNoMatch(t', f, normal[1..], parseDate);
      } else {
        StepsRow(t, f, normal[1..], parseDate);
      }
    }
  }

  lemma {:induction false} StepsNoMatch(t: Table, f: string, normal: seq<string>, parseDate: string -> Option<int>)
    requires f !in normal
    ensures Steps(t, Row(f, normal), parseDate) == Success(t)
  {
    if normal != [] {
      StepsNoMatch(t, f, normal[1..], parseDate);
    }
  }

  /** The whole loop over distinct failed bases and distinct normal keys,
      normal keys free of `failed_`, deletes one entry per clashing base. */
  lemma {:induction false} StepsPairs(t: Table, failed: seq<string>, normal: seq<string>, parseDate: string -> Option<int>)
    requires forall i, j :: 0 <= i < j < |failed| ==> failed[i] != failed[j]
    requires forall i, j :: 0 <= i < j < |normal| ==> normal[i] != normal[j]
    requires forall n :: n in normal ==> !Text.Contains(n, FailedPrefix)
    requires Paired(t, failed, normal)
    requires forall k :: k in t ==> parseDate(t[k].lastExecutionDate).Some?
    ensures Steps(t, Pairs(failed, normal), parseDate) == Success(t - Losers(t, failed, normal, parseDate))
  {
    if failed == [] {
      assert Losers(t, failed, normal, parseDate) == {};
      assert t - {} == t;
    } else {
      var f := failed[0];
      StepsAppend(t, Row(f, normal), Pairs(failed[1..], normal), parseDate);
      StepsRow(t, f, normal, parseDate);
      var t' := if f in normal then t - {Loser(t, f, parseDate)} else t;
      assert failed == [f] + failed[1..];
      assert f !in failed[1..] by {
        forall j | 0 <= j < |failed[1..]| ensures failed[1..][j] != f {
          assert failed[1..][j] == failed[j + 1];
        }
      }
      PairedAfterRow(t, f, failed[1..], normal, parseDate);
      StepsPairs(t', failed[1..], normal, parseDate);
      LosersAfterRow(t, failed, normal, parseDate);
    }
  }

  /** The remaining bases stay paired after the first base's row. */
  lemma PairedAfterRow(t: Table, f: string, rest: seq<string>, normal: seq<string>, parseDate: string -> Option<int>)
    requires f !in rest
    requires forall n :: n in normal ==> !Text.Contains(n, FailedPrefix)
    requires Paired(t, [f] + rest, normal)
    requires forall k :: k in t ==> parseDate(t[k].lastExecutionDate).Some?
    ensures f in normal ==> Paired(t - {Loser(t, f, parseDate)}, rest, normal)
    ensures f !in normal ==> Paired(t, rest, normal)
  {
    assert f in [f] + rest;
    assert forall g :: g in rest ==> g in [f] + rest;
    if f in normal {
      var t' := t - {Loser(t, f, parseDate)};
      forall g | g in rest && g in normal
        ensures g in t' && FailedPrefix + g in t'
      {
        assert g != f;
        PrefixContains(f);
        PrefixContains(g);
        assert FailedPrefix + g != FailedPrefix + f by {
          assert (FailedPrefix + g)[7..] == g && (FailedPrefix + f)[7..] == f;
        }
      }
    }
  }

  /** The losers of the whole loop: the first base's, if it clashes, and
      those of the rest, which the first row does not change. */
  lemma LosersAfterRow(t: Table, failed: seq<string>, normal: seq<string>, parseDate: string -> Option<int>)
    requires failed != [] && failed[0] !in failed[1..]
    requires Paired(t, failed, normal)
    requires forall k :: k in t ==> parseDate(t[k].lastExecutionDate).Some?
    requires failed[0] in normal ==> Paired(t - {Loser(t, failed[0], parseDate)}, failed[1..], normal)
    requires failed[0] !in normal ==> Paired(t, failed[1..], normal)
    ensures var f := failed[0];
      var t' := if f in normal then t - {Loser(t, f, parseDate)} else t;
      Paired(t', failed[1..], normal) &&
      t' - Losers(t', failed[1..], normal, parseDate) == t - Losers(t, failed, normal, parseDate)
  {
    var f := failed[0];
    var t' := if f in normal then t - {Loser(t, f, parseDate)} else t;
    assert Paired(t, failed[1..], normal) by {
      forall g | g in failed[1..] && g in normal ensures g in t && FailedPrefix + g in t {
        assert g in failed;
      }
    }
    var rest := Losers(t', failed[1..], normal, parseDate);
    assert rest == Losers(t, failed[1..], normal, parseDate) by {
      forall g | g in failed[1..] && g in normal ensures Loser(t', g, parseDate) == Loser(t, g, parseDate) {}
    }
    assert forall k :: k in Losers(t, failed, normal, parseDate) <==>
      (f in normal && k == Loser(t, f, parseDate)) || k in Losers(t, failed[1..], normal, parseDate);
  }

  lemma {:induction false} FailedKeysMembers(keys: seq<string>)
    ensures forall f :: f in FailedKeys(keys) <==> exists k :: k in keys && Text.Contains(k, FailedPrefix) && Drop7(k) == f
  {
    if keys != [] {
      FailedKeysMembers(keys[1..]);
      assert forall k :: k in keys <==> k == keys[0] || k in keys[1..];
    }
  }

  lemma {:induction false} NormalKeysMembers(keys: seq<string>)
    ensures forall n :: n in NormalKeys(keys) <==> n in keys && !Text.Contains(n, FailedPrefix)
  {
    if keys != [] {
      NormalKeysMembers(keys[1..]);
    }
  }

  predicate Distinct<T(==)>(s: seq<T>) {
    forall i, j :: 0 <= i < j < |s| ==> s[i] != s[j]
  }

  lemma DistinctCons<T>(x: seq<T>, r: seq<T>)
    requires |x| <= 1 && Distinct(r) && forall y :: y in x ==> y !in r
    ensures Distinct(x + r)
  {
    if |x| == 1 {
      forall i, j | 0 <= i < j < |x + r| ensures (x + r)[i] != (x + r)[j] {
        assert (x + r)[j] == r[j - 1] && r[j - 1] in r;
        if i == 0 {
          assert (x + r)[0] == x[0] && x[0] in x;
        } else {
          assert (x + r)[i] == r[i - 1];
        }
      }
    } else {
      assert x + r == r;
    }
  }

  lemma {:induction false} NormalKeysDistinct(keys: seq<string>)
    requires Distinct(keys)
    ensures Distinct(NormalKeys(keys))
  {
    if keys != [] {
      NormalKeysDistinct(keys[1..]);
      NormalKeysMembers(keys[1..]);
      assert keys[0] !in keys[1..];
      DistinctCons(if Text.Contains(keys[0], FailedPrefix) then [] else [keys[0]], NormalKeys(keys[1..]));
    }
  }

  lemma {:induction false} FailedKeysDistinct(keys: seq<string>)
    requires Distinct(keys)
    requires forall k :: k in keys && Text.Contains(k, FailedPrefix) ==> Text.StartsWith(k, FailedPrefix)
    ensures Distinct(FailedKeys(keys))
  {
    if keys != [] {
      FailedKeysDistinct(keys[1..]);
      FailedKeysMembers(keys[1..]);
      var k := keys[0];
      assert k !in keys[1..];
      if Text.Contains(k, FailedPrefix) {
        forall k' | k' in keys[1..] && Text.Contains(k', FailedPrefix) ensures Drop7(k') != Drop7(k) {
          assert k == FailedPrefix + Drop7(k) && k' == FailedPrefix + Drop7(k');
        }
      }
      DistinctCons(if Text.Contains(k, FailedPrefix) then [Drop7(k)] else [], FailedKeys(keys[1..]));
    }
  }

  /** The facts the loop relies on, for the key lists of a well-formed table. */
  lemma KeyListsFacts(t0: Table, keys: seq<string>, parseDate: string -> Option<int>)
    requires WellFormed(t0, keys, parseDate)
    ensures var F, N := FailedKeys(keys), NormalKeys(keys);
      && (forall i, j :: 0 <= i < j < |F| ==> F[i] != F[j])
      && (forall i, j :: 0 <= i < j < |N| ==> N[i] != N[j])
      && (forall n :: n in N <==> n in t0 && !Text.Contains(n, FailedPrefix))
      && (forall f :: f in F <==> exists k :: k in t0 && Text.Contains(k, FailedPrefix) && Drop7(k) == f)
      && Paired(t0, F, N)
  {
    FailedKeysDistinct(keys);
    NormalKeysDistinct(keys);
    FailedKeysMembers(keys);
    NormalKeysMembers(keys);
    var F, N := FailedKeys(keys), NormalKeys(keys);
    forall f | f in F && f in N ensures f in t0 && FailedPrefix + f in t0 {
      var k :| k in keys && Text.Contains(k, FailedPrefix) && Drop7(k) == f;
      assert k == FailedPrefix + f;
    }
  }

  lemma LoserIffBeaten(t0: Table, keys: seq<string>, parseDate: string -> Option<int>, k: string)
    requires WellFormed(t0, keys, parseDate)
    requires Paired(t0, FailedKeys(keys), NormalKeys(keys))
    ensures k in Losers(t0, FailedKeys(keys), NormalKeys(keys), parseDate) <==> k in t0 && Beaten(t0, k, parseDate)
  {
    KeyListsFacts(t0, keys, parseDate);
    if k in Losers(t0, FailedKeys(keys), NormalKeys(keys), parseDate) {
      LoserIsBeaten(t0, keys, parseDate, k);
    }
    if k in t0 && Beaten(t0, k, parseDate) {
      BeatenIsLoser(t0, keys, parseDate, k);
    }
  }

  lemma LoserIsBeaten(t0: Table, keys: seq<string>, parseDate: string -> Option<int>, k: string)
    requires WellFormed(t0, keys, parseDate)
    requires Paired(t0, FailedKeys(keys), NormalKeys(keys))
    requires forall n :: n in NormalKeys(keys) <==> n in t0 && !Text.Contains(n, FailedPrefix)
    requires k in Losers(t0, FailedKeys(keys), NormalKeys(keys), parseDate)
    ensures k in t0 && Beaten(t0, k, parseDate)
  {
    var F, N := FailedKeys(keys), NormalKeys(keys);
    var f :| f in F && f in N && k == Loser(t0, f, parseDate);
    PrefixContains(f);
    if k != f {
      assert Drop7(FailedPrefix + f) == f;
      assert Text.StartsWith(FailedPrefix + f, FailedPrefix);
    }
  }

  lemma BeatenIsLoser(t0: Table, keys: seq<string>, parseDate: string -> Option<int>, k: string)
    requires WellFormed(t0, keys, parseDate)
    requires Paired(t0, FailedKeys(keys), NormalKeys(keys))
    requires forall n :: n in NormalKeys(keys) <==> n in t0 && !Text.Contains(n, FailedPrefix)
    requires forall f :: f in FailedKeys(keys) <==> exists k :: k in t0 && Text.Contains(k, FailedPrefix) && Drop7(k) == f
    requires k in t0 && Beaten(t0, k, parseDate)
    ensures k in Losers(t0, FailedKeys(keys), NormalKeys(keys), parseDate)
  {
    var F, N := FailedKeys(keys), NormalKeys(keys);
    if Text.Contains(k, FailedPrefix) {
      var b := Drop7(k);
      assert k == FailedPrefix + b;
      assert b in F && b in N;
      assert Loser(t0, b, parseDate) == k;
    } else {
      PrefixContains(k);
      assert Drop7(FailedPrefix + k) == k;
      assert k in F && k in N;
      assert Loser(t0, k, parseDate) == k;
    }
  }
}
