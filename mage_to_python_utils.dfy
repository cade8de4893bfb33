/** The syntax-tree normaliser of mage_to_cwl/mage_to_python_utils.py:
    `MageToPythonTransformer` and `remove_imports_with_word`.

    The transformer walks a module like Python's `ast.NodeTransformer`: a
    visitor returning no statement deletes the node, one returning a node
    keeps it. While it walks it accumulates, in its fields, the statements to
    move into the `__main__` block, the argument-reading code, the names of
    the environment variables it introduces, the classified output type and
    three "import still needed" flags.

    The specification functions (`WalkStmts` and the functions it calls)
    say what one walk does, from an accumulator value `Acc` to a new one; the
    class's methods are proved to update their fields exactly as these
    functions say. */
module MageToPythonUtils {
  import opened Wrappers
  import opened Text
  import opened PyAst

  // ---------------------------------------------------------------------
  // Accumulated state and configuration

  /** The transformer's mutable fields, as one value. */
  datatype Acc = Acc(
    collected: seq<Stmt>,
    firstArg: seq<Stmt>,
    envVars: seq<string>,
    outputType: Option<OutputType>,
    osNeeded: bool,
    argparseNeeded: bool,
    pandasNeeded: bool)

  /** The transformer's fixed parameters. */
  datatype Config = Config(word: string, decorators: seq<string>, blockName: string, inputType: string)

  /** The fields as `__init__` sets them. */
  const InitialAcc: Acc := Acc([], [], [], None, true, true, true)

  /** The role decorators `remove_imports_with_word` passes. */
  const RoleDecorators: seq<string> := ["data_loader", "transformer", "data_exporter", "sensor"]

  /** The result of visiting a statement or a list of statements: the new
      accumulator and the statements that take their place. */
  datatype Visited = Visited(acc: Acc, out: seq<Stmt>)

  // ---------------------------------------------------------------------
  // visit_Import, visit_ImportFrom

  /** The aliases whose name does not contain `word`, in order. */
  function KeepAliases(names: seq<Alias>, word: string): (r: seq<Alias>)
    ensures |r| <= |names|
    decreases |names|
  {
    if names == [] then []
    else (if Contains(names[0].name, word) then [] else [names[0]]) + KeepAliases(names[1..], word)
  }

  /** The kept aliases are exactly those whose name does not contain `word`. */
  lemma {:induction false} KeepAliasesMembers(names: seq<Alias>, word: string)
    ensures forall a :: a in KeepAliases(names, word) <==> a in names && !Contains(a.name, word)
    decreases |names|
  {
    if names != [] {
      KeepAliasesMembers(names[1..], word);
      assert forall a :: a in names <==> a == names[0] || a in names[1..];
    }
  }

  /** The flags after looking at the kept aliases of an `import`: an alias
      `os` clears the `os` flag, `argparse` the argparse flag, and `pandas`
      or anything imported `as pd` the pandas flag. */
  /** The flags after one kept alias of an `import`. */
  function ImportFlag(acc: Acc, a: Alias): Acc {
    acc.(osNeeded := acc.osNeeded && a.name != "os",
         argparseNeeded := acc.argparseNeeded && a.name != "argparse",
         pandasNeeded := acc.pandasNeeded && a.name != "pandas" && a.asname != Some("pd"))
  }

  function ImportFlags(acc: Acc, names: seq<Alias>): (r: Acc)
    decreases |names|
    ensures r == acc.(osNeeded := r.osNeeded, argparseNeeded := r.argparseNeeded, pandasNeeded := r.pandasNeeded)
    ensures r.osNeeded == (acc.osNeeded && forall a :: a in names ==> a.name != "os")
    ensures r.argparseNeeded == (acc.argparseNeeded && forall a :: a in names ==> a.name != "argparse")
    ensures r.pandasNeeded == (acc.pandasNeeded && forall a :: a in names ==> a.name != "pandas" && a.asname != Some("pd"))
  {
    if names == [] then acc
    else
      var a := names[0];
      var r := ImportFlags(ImportFlag(acc, a), names[1..]);
      assert forall b :: b in names <==> b == a || b in names[1..];
      r
  }

  function WalkImport(cfg: Config, acc: Acc, names: seq<Alias>): (v: Visited)
    ensures v.out == [] <==> forall a :: a in names ==> Contains(a.name, cfg.word)
    ensures v.out != [] ==> v.out == [Import(KeepAliases(names, cfg.word))]
    ensures v.out == [] ==> v.acc == acc
  {
    var kept := KeepAliases(names, cfg.word);
    KeepAliasesMembers(names, cfg.word);
    if kept == [] then
      assert forall a :: a in names ==> Contains(a.name, cfg.word);
      Visited(acc, [])
    else
      assert kept[0] in names && !Contains(kept[0].name, cfg.word);
      Visited(ImportFlags(acc, kept), [Import(kept)])
  }

  function WalkImportFrom(cfg: Config, acc: Acc, fromModule: Option<string>, names: seq<Alias>): (v: Visited)
    ensures v.out == [] <==> fromModule.Some? && Contains(fromModule.value, cfg.word)
    ensures v.out != [] ==> v.out == [ImportFrom(fromModule, names)]
    ensures v.out == [] ==> v.acc == acc
    ensures v.out != [] ==> v.acc == acc.(
      osNeeded := acc.osNeeded && fromModule != Some("os"),
      argparseNeeded := acc.argparseNeeded && fromModule != Some("argparse"),
      pandasNeeded := acc.pandasNeeded && fromModule != Some("pandas"))
  {
    if fromModule.Some? && Contains(fromModule.value, cfg.word) then
      Visited(acc, [])
    else
      var acc1 := acc.(
        osNeeded := acc.osNeeded && fromModule != Some("os"),
        argparseNeeded := acc.argparseNeeded && fromModule != Some("argparse"),
        pandasNeeded := acc.pandasNeeded && fromModule != Some("pandas"));
      Visited(acc1, [ImportFrom(fromModule, names)])
  }

  // ---------------------------------------------------------------------
  // visit_FunctionDef

  predicate HasNameDecorator(decorators: seq<Decorator>, ids: seq<string>) {
    exists d :: d in decorators && d.NameDecorator? && d.id in ids
  }

  /** The body without a leading docstring. */
  function StripDocstring(body: seq<Stmt>): seq<Stmt> {
    if |body| > 0 && body[0] == Docstring then body[1..] else body
  }

  /** `<BLOCK_NAME>_OUTPUT_FILE`. */
  function OutputFileVar(blockName: string): string {
    Upper(blockName) + "_OUTPUT_FILE"
  }

  /** The output type after one `return value`: a method call `to_csv`
      gives pandas, `dump` or a dictionary display gives dict, any other
      method call keeps the previous type, and everything else gives str. */
  function Classify(value: Expr, previous: Option<OutputType>): Option<OutputType> {
    match value
    case AttrCall(attr) =>
      if attr == "to_csv" then Some(Pandas) else if attr == "dump" then Some(Dict) else previous
    case DictLit => Some(Dict)
    case _ => Some(Str)
  }

  /** What one replaced `return value` does to the fields. */
  function ReturnEffect(cfg: Config, acc: Acc, value: Expr): Acc {
    acc.(
      outputType := Classify(value, acc.outputType),
      envVars := acc.envVars + [OutputFileVar(cfg.blockName)],
      pandasNeeded := if value == Attribute("DataFrame") then true else acc.pandasNeeded)
  }

  /** The fields after every top-level `return` of `body` has been replaced,
      in order. */
  function ReturnEffects(cfg: Config, acc: Acc, body: seq<Stmt>): Acc
    decreases |body|
  {
    if body == [] then acc
    else ReturnEffects(cfg, if body[0].Return? then ReturnEffect(cfg, acc, body[0].value) else acc, body[1..])
  }

  /** The body with every top-level `return value` replaced by the
      two-statement write-output block. */
  function ExpandReturns(body: seq<Stmt>, fileVar: string): seq<Stmt>
    decreases |body|
  {
    if body == [] then []
    else (if body[0].Return? then [OutputFileRead(fileVar), WriteOutput(body[0].value)] else [body[0]])
         + ExpandReturns(body[1..], fileVar)
  }

  /** The number of top-level `return` statements. */
  function CountReturns(body: seq<Stmt>): nat
    decreases |body|
  {
    if body == [] then 0 else (if body[0].Return? then 1 else 0) + CountReturns(body[1..])
  }

  /** The argument-reading code exists when the function has a first
      positional parameter (the source also compares its name with `*args`,
      a comparison that always succeeds). */
  function FirstArgCode(cfg: Config, params: seq<string>): seq<Stmt> {
    if |params| > 0 && params[0] != "*args" then [ReadInput(params[0], cfg.inputType)] else []
  }

  /** A function with a `@test` decorator is deleted and nothing is recorded;
      one with a role decorator is deleted and its body, without docstring and
      with its returns replaced, is collected; any other function is kept as it
      is and its body is not visited. */
  function WalkFunctionDef(cfg: Config, acc: Acc, fn: Stmt): Visited
    requires fn.FunctionDef?
  {
    if HasNameDecorator(fn.decorators, ["test"]) then Visited(acc, [])
    else if HasNameDecorator(fn.decorators, cfg.decorators) then
      var body := StripDocstring(fn.body);
      var acc1 := ReturnEffects(cfg, acc, body);
      var acc2 := acc1.(collected := acc1.collected + ExpandReturns(body, OutputFileVar(cfg.blockName)));
      Visited(acc2.(firstArg := acc2.firstArg + FirstArgCode(cfg, fn.params)), [])
    else Visited(acc, [fn])
  }

  // ---------------------------------------------------------------------
  // visit_If and the walk

  /** The filter `visit_If` applies to the visited body: imports left with no
      names go. */
  function DropEmptyImports(body: seq<Stmt>): (r: seq<Stmt>)
    ensures forall s :: s in r <==> s in body && !((s.Import? || s.ImportFrom?) && s.names == [])
  {
    if body == [] then []
    else (if (body[0].Import? || body[0].ImportFrom?) && body[0].names == [] then [] else [body[0]])
         + DropEmptyImports(body[1..])
  }

  /** Visits the body, then the else branch; an `if` whose body became empty
      is deleted with its else branch. */
  function WalkIf(cfg: Config, acc: Acc, s: Stmt): Visited
    requires s.If?
    decreases s, 0
  {
    var b := WalkStmts(cfg, acc, s.body);
    var o := WalkStmts(cfg, b.acc, s.orelse);
    if b.out == [] then Visited(o.acc, [])
    else
      var body := DropEmptyImports(b.out);
      if body == [] then Visited(o.acc, []) else Visited(o.acc, [If(s.isMain, body, o.out)])
  }

  function WalkStmt(cfg: Config, acc: Acc, s: Stmt): Visited
    decreases s, 1
  {
    match s
    case Import(names) => WalkImport(cfg, acc, names)
    case ImportFrom(fromModule, names) => WalkImportFrom(cfg, acc, fromModule, names)
    case If(_, _, _) => WalkIf(cfg, acc, s)
    case FunctionDef(_, _, _, _) => WalkFunctionDef(cfg, acc, s)
    case _ => Visited(acc, [s])
  }

  /** Visits a list of statements in order, splicing in what each visit
      returns. */
  function WalkStmts(cfg: Config, acc: Acc, ss: seq<Stmt>): Visited
    decreases ss, 2
  {
    if ss == [] then Visited(acc, [])
    else
      var v := WalkStmt(cfg, acc, ss[0]);
      var w := WalkStmts(cfg, v.acc, ss[1..]);
      Visited(w.acc, v.out + w.out)
  }

  // ---------------------------------------------------------------------
  // remove_imports_with_word: assembling the module

  /** The index of the first top-level `if __name__ == '__main__'`. */
  function FindMain(body: seq<Stmt>): (r: Option<nat>)
    ensures r.Some? ==> r.value < |body| && body[r.value].If? && body[r.value].isMain
    ensures r.Some? ==> forall k :: 0 <= k < r.value ==> !(body[k].If? && body[k].isMain)
    ensures r.None? ==> forall k :: 0 <= k < |body| ==> !(body[k].If? && body[k].isMain)
    decreases |body|
  {
    if body == [] then None
    else if body[0].If? && body[0].isMain then Some(0)
    else match FindMain(body[1..])
      case Some(k) => Some(k + 1)
      case None => None
  }

  /** Python's `list.insert(i, x)` for `i >= 0`. */
  function InsertAt<T>(s: seq<T>, i: nat, x: T): (r: seq<T>)
    ensures |r| == |s| + 1
    ensures i <= |s| ==> r == s[..i] + [x] + s[i..]
    ensures i > |s| ==> r == s + [x]
  {
    if i <= |s| then s[..i] + [x] + s[i..] else s + [x]
  }

  /** The `__main__` block gets the argument-reading code, then its old body,
      then the collected statements; a new one is appended if there was none. */
  function SpliceMain(body: seq<Stmt>, acc: Acc): seq<Stmt> {
    match FindMain(body)
    case Some(k) => body[k := If(true, acc.firstArg + body[k].body + acc.collected, body[k].orelse)]
    case None => body + [If(true, acc.firstArg + acc.collected, [])]
  }

  /** The assembled module: main block spliced, then `import os` inserted at
      index 0 and `import pandas as pd` at index 1 when still needed. */
  function Assemble(body: seq<Stmt>, acc: Acc): seq<Stmt> {
    var withMain := SpliceMain(body, acc);
    var withOs := if acc.osNeeded then [OsImport] + withMain else withMain;
    if acc.pandasNeeded then InsertAt(withOs, 1, PandasImport) else withOs
  }

  /** The first `__main__` block is reused, its body becoming the
      argument-reading code, then its old body, then the collected statements;
      every other statement stays where it was. Without one, a new block is
      appended. */
  lemma SpliceMainBlock(body: seq<Stmt>, acc: Acc)
    ensures var r := SpliceMain(body, acc);
      match FindMain(body)
      case Some(k) =>
        |r| == |body| && r[k] == If(true, acc.firstArg + body[k].body + acc.collected, body[k].orelse)
        && forall j :: 0 <= j < |body| && j != k ==> r[j] == body[j]
      case None =>
        r == body + [If(true, acc.firstArg + acc.collected, [])]
  {
  }

  /** `import os` is inserted at index 0 and `import pandas as pd` at index 1
      exactly when they are still needed. Without `import os`, the pandas import
      lands after the module's first statement. */
  lemma AssembleImports(body: seq<Stmt>, acc: Acc)
    ensures var m := SpliceMain(body, acc);
      var r := Assemble(body, acc);
      && |m| > 0
      && (acc.osNeeded && acc.pandasNeeded ==> r == [OsImport, PandasImport] + m)
      && (acc.osNeeded && !acc.pandasNeeded ==> r == [OsImport] + m)
      && (!acc.osNeeded && acc.pandasNeeded ==> r == [m[0], PandasImport] + m[1..])
      && (!acc.osNeeded && !acc.pandasNeeded ==> r == m)
  {
    var m := SpliceMain(body, acc);
    assert ([OsImport] + m)[..1] == [OsImport] && ([OsImport] + m)[1..] == m;
    assert m[..1] == [m[0]];
  }

  /** What `remove_imports_with_word` produces from a parsed module, before
      unparsing: the module body, the environment-variable names and the output type. */
  datatype Normalised = Normalised(stmts: seq<Stmt>, envVars: seq<string>, outputType: Option<OutputType>)

  function Normalise(cfg: Config, tree: seq<Stmt>): Normalised {
    var v := WalkStmts(cfg, InitialAcc, tree);
    Normalised(Assemble(v.out, v.acc), v.acc.envVars, v.acc.outputType)
  }

  // ---------------------------------------------------------------------
  // Properties of the walk

  /** `n` copies of `x`. */
  function Repeat<T>(x: T, n: nat): (r: seq<T>)
    ensures |r| == n && forall i :: 0 <= i < n ==> r[i] == x
  {
    if n == 0 then [] else [x] + Repeat(x, n - 1)
  }

  predicate NoReturn(body: seq<Stmt>) {
    forall i :: 0 <= i < |body| ==> !body[i].Return?
  }

  /** No statement of the source is one of the injected write-output statements. */
  predicate NoInjected(body: seq<Stmt>) {
    forall i :: 0 <= i < |body| ==> !body[i].OutputFileRead?
  }

  /** The inverse of `ExpandReturns`: each write-output block goes back to
      the `return` it replaced. */
  function Collapse(body: seq<Stmt>): seq<Stmt>
    decreases |body|
  {
    if body == [] then []
    else if |body| >= 2 && body[0].OutputFileRead? && body[1].WriteOutput? then
      [Return(body[1].value)] + Collapse(body[2..])
    else [body[0]] + Collapse(body[1..])
  }

  /** After the splice no top-level `return` is left. */
  lemma {:induction false} ExpandReturnsNoReturn(body: seq<Stmt>, fileVar: string)
    ensures NoReturn(ExpandReturns(body, fileVar))
    decreases |body|
  {
    if body != [] {
      ExpandReturnsNoReturn(body[1..], fileVar);
    }
  }

  /** Each `return` becomes two statements; nothing else is added or lost. */
  lemma {:induction false} ExpandReturnsLength(body: seq<Stmt>, fileVar: string)
    ensures |ExpandReturns(body, fileVar)| == |body| + CountReturns(body)
    decreases |body|
  {
    if body != [] {
      ExpandReturnsLength(body[1..], fileVar);
    }
  }

  /** The splice can be undone: it replaces the `return`s and leaves every
      other statement, including returns nested in inner statements, as it was. */
  lemma {:induction false} CollapseExpand(body: seq<Stmt>, fileVar: string)
    requires NoInjected(body)
    ensures Collapse(ExpandReturns(body, fileVar)) == body
    decreases |body|
  {
    if body != [] {
      var rest := ExpandReturns(body[1..], fileVar);
      CollapseExpand(body[1..], fileVar);
      if body[0].Return? {
        var e := [OutputFileRead(fileVar), WriteOutput(body[0].value)] + rest;
        assert e[2..] == rest;
      } else {
        var e := [body[0]] + rest;
        assert e[1..] == rest;
      }
    }
  }

  /** One `<BLOCK_NAME>_OUTPUT_FILE` is appended per replaced `return`. */
  lemma {:induction false} ReturnEffectsEnvVars(cfg: Config, acc: Acc, body: seq<Stmt>)
    ensures ReturnEffects(cfg, acc, body).envVars == acc.envVars + Repeat(OutputFileVar(cfg.blockName), CountReturns(body))
    decreases |body|
  {
    if body != [] {
      var acc1 := if body[0].Return? then ReturnEffect(cfg, acc, body[0].value) else acc;
      ReturnEffectsEnvVars(cfg, acc1, body[1..]);
      if body[0].Return? {
        var x := OutputFileVar(cfg.blockName);
        assert Repeat(x, CountReturns(body)) == [x] + Repeat(x, CountReturns(body[1..]));
      }
    }
  }

  /** Replacing returns touches neither the collected nor the argument-reading
      statements nor the `os`/`argparse` flags; the pandas flag becomes set
      exactly when some `return` returns an attribute `DataFrame`. */
  lemma {:induction false} ReturnEffectsFrame(cfg: Config, acc: Acc, body: seq<Stmt>)
    ensures var r := ReturnEffects(cfg, acc, body);
      && r.collected == acc.collected && r.firstArg == acc.firstArg
      && r.osNeeded == acc.osNeeded && r.argparseNeeded == acc.argparseNeeded
      && r.pandasNeeded == (acc.pandasNeeded || Return(Attribute("DataFrame")) in body)
    decreases |body|
  {
    if body != [] {
      var acc1 := if body[0].Return? then ReturnEffect(cfg, acc, body[0].value) else acc;
      ReturnEffectsFrame(cfg, acc1, body[1..]);
      assert Return(Attribute("DataFrame")) in body <==> body[0] == Return(Attribute("DataFrame")) || Return(Attribute("DataFrame")) in body[1..];
    }
  }

  lemma {:induction false} ReturnEffectsAppend(cfg: Config, acc: Acc, pre: seq<Stmt>, post: seq<Stmt>)
    ensures ReturnEffects(cfg, acc, pre + post) == ReturnEffects(cfg, ReturnEffects(cfg, acc, pre), post)
    decreases |pre|
  {
    if pre != [] {
      assert (pre + post)[1..] == pre[1..] + post;
      ReturnEffectsAppend(cfg, if pre[0].Return? then ReturnEffect(cfg, acc, pre[0].value) else acc, pre[1..], post);
    } else {
      assert pre + post == post;
    }
  }

  lemma {:induction false} ReturnEffectsNoReturnOutput(cfg: Config, acc: Acc, body: seq<Stmt>)
    requires NoReturn(body)
    ensures ReturnEffects(cfg, acc, body).outputType == acc.outputType
    decreases |body|
  {
    if body != [] {
      ReturnEffectsNoReturnOutput(cfg, acc, body[1..]);
    }
  }

  /** The last `return` decides the output type, unless it calls a method
      other than `to_csv` and `dump`, which leaves the type as it was. */
  lemma LastReturnWins(cfg: Config, acc: Acc, pre: seq<Stmt>, e: Expr, post: seq<Stmt>)
    requires NoReturn(post)
    ensures var t := ReturnEffects(cfg, acc, pre + [Return(e)] + post).outputType;
      if e.AttrCall? && e.attr != "to_csv" && e.attr != "dump"
      then t == ReturnEffects(cfg, acc, pre).outputType
      else t == Classify(e, None)
  {
    ReturnEffectsAppend(cfg, acc, pre + [Return(e)], post);
    ReturnEffectsAppend(cfg, acc, pre, [Return(e)]);
    var mid := ReturnEffects(cfg, acc, pre + [Return(e)]);
    ReturnEffectsNoReturnOutput(cfg, mid, post);
  }

  /** The fields the walk only ever appends to. */
  predicate Extends(a: Acc, b: Acc) {
    a.collected <= b.collected && a.firstArg <= b.firstArg && a.envVars <= b.envVars
  }

  /** No collected statement is a top-level `return`, and every
      environment-variable name is `<BLOCK_NAME>_OUTPUT_FILE`. */
  predicate CleanCollected(cfg: Config, a: Acc) {
    NoReturn(a.collected) && forall i :: 0 <= i < |a.envVars| ==> a.envVars[i] == OutputFileVar(cfg.blockName)
  }

  lemma PrefixTrans<T>(a: seq<T>, b: seq<T>, c: seq<T>)
    requires a <= b && b <= c
    ensures a <= c
  {
    assert c[..|a|] == b[..|a|];
  }

  lemma ExtendsTrans(a: Acc, b: Acc, c: Acc)
    requires Extends(a, b) && Extends(b, c)
    ensures Extends(a, c)
  {
    PrefixTrans(a.collected, b.collected, c.collected);
    PrefixTrans(a.firstArg, b.firstArg, c.firstArg);
    PrefixTrans(a.envVars, b.envVars, c.envVars);
  }

  lemma FunctionDefExtends(cfg: Config, acc: Acc, fn: Stmt)
    requires fn.FunctionDef?
    ensures Extends(acc, WalkFunctionDef(cfg, acc, fn).acc)
    ensures CleanCollected(cfg, acc) ==> CleanCollected(cfg, WalkFunctionDef(cfg, acc, fn).acc)
  {
    if !HasNameDecorator(fn.decorators, ["test"]) && HasNameDecorator(fn.decorators, cfg.decorators) {
      var body := StripDocstring(fn.body);
      var fileVar := OutputFileVar(cfg.blockName);
      ReturnEffectsFrame(cfg, acc, body);
      ReturnEffectsEnvVars(cfg, acc, body);
      ExpandReturnsNoReturn(body, fileVar);
      var acc1 := ReturnEffects(cfg, acc, body);
      var c := acc1.collected + ExpandReturns(body, fileVar);
      assert forall i :: |acc1.collected| <= i < |c| ==> c[i] == ExpandReturns(body, fileVar)[i - |acc1.collected|];
    }
  }

  /** The walk only appends to the collected statements, the argument-reading
      statements and the environment-variable names, and never collects a
      top-level `return`. */
  lemma WalkStmtExtends(cfg: Config, acc: Acc, s: Stmt)
    ensures Extends(acc, WalkStmt(cfg, acc, s).acc)
    ensures CleanCollected(cfg, acc) ==> CleanCollected(cfg, WalkStmt(cfg, acc, s).acc)
    decreases s, 1
  {
    match s
    case If(_, body, orelse) =>
      var b := WalkStmts(cfg, acc, body);
      WalkStmtsExtends(cfg, acc, body);
      WalkStmtsExtends(cfg, b.acc, orelse);
      ExtendsTrans(acc, b.acc, WalkStmts(cfg, b.acc, orelse).acc);
    case FunctionDef(_, _, _, _) => FunctionDefExtends(cfg, acc, s);
    case _ =>
  }

  lemma WalkStmtsExtends(cfg: Config, acc: Acc, ss: seq<Stmt>)
    ensures Extends(acc, WalkStmts(cfg, acc, ss).acc)
    ensures CleanCollected(cfg, acc) ==> CleanCollected(cfg, WalkStmts(cfg, acc, ss).acc)
    decreases ss, 2
  {
    if ss != [] {
      var v := WalkStmt(cfg, acc, ss[0]);
      WalkStmtExtends(cfg, acc, ss[0]);
      WalkStmtsExtends(cfg, v.acc, ss[1..]);
      ExtendsTrans(acc, v.acc, WalkStmts(cfg, v.acc, ss[1..]).acc);
    }
  }

  /** `@test` wins over a role decorator; a role function is removed and its
      body collected; any other function stays, unvisited. */
  lemma FunctionDefCases(cfg: Config, acc: Acc, fn: Stmt)
    requires fn.FunctionDef?
    ensures var v := WalkStmt(cfg, acc, fn);
      && (HasNameDecorator(fn.decorators, ["test"]) ==> v == Visited(acc, []))
      && (!HasNameDecorator(fn.decorators, ["test"]) && !HasNameDecorator(fn.decorators, cfg.decorators) ==> v == Visited(acc, [fn]))
      && (!HasNameDecorator(fn.decorators, ["test"]) && HasNameDecorator(fn.decorators, cfg.decorators) ==>
            v.out == []
            && v.acc.collected == acc.collected + ExpandReturns(StripDocstring(fn.body), OutputFileVar(cfg.blockName))
            && v.acc.firstArg == acc.firstArg + FirstArgCode(cfg, fn.params)
            && v.acc.envVars == acc.envVars + Repeat(OutputFileVar(cfg.blockName), CountReturns(StripDocstring(fn.body))))
  {
    ReturnEffectsFrame(cfg, acc, StripDocstring(fn.body));
    ReturnEffectsEnvVars(cfg, acc, StripDocstring(fn.body));
  }

  /** An `if` is removed, else branch included, exactly when its visited
      body is empty once empty imports are dropped; a kept `if` has that
      filtered body. */
  lemma IfCases(cfg: Config, acc: Acc, s: Stmt)
    requires s.If?
    ensures var v := WalkStmt(cfg, acc, s);
      var b := WalkStmts(cfg, acc, s.body);
      && v.acc == WalkStmts(cfg, b.acc, s.orelse).acc
      && (b.out == [] ==> v.out == [])
      && (v.out == [] <==> DropEmptyImports(b.out) == [])
      && (v.out == [] || (|v.out| == 1 && v.out[0].If? && v.out[0].isMain == s.isMain
          && v.out[0].body != [] && v.out[0].body == DropEmptyImports(b.out)
          && v.out[0].orelse == WalkStmts(cfg, b.acc, s.orelse).out))
  {
  }

  /** Every name the normaliser reports is `<BLOCK_NAME>_OUTPUT_FILE`, one
      per replaced `return`. */
  lemma NormaliseEnvVars(cfg: Config, tree: seq<Stmt>)
    ensures var e := Normalise(cfg, tree).envVars;
      forall i :: 0 <= i < |e| ==> e[i] == OutputFileVar(cfg.blockName)
  {
    WalkStmtsExtends(cfg, InitialAcc, tree);
  }

  // ---------------------------------------------------------------------
  // The transformer object

  class MageToPythonTransformer {
    const word: string
    const decorators: seq<string>
    const blockName: string
    const previousBlockName: Option<string>
    const inputType: string
    var collectedStatements: seq<Stmt>
    var osImportNeeded: bool
    var argparseImportNeeded: bool
    var firstArgStatements: seq<Stmt>
    var pandasImportNeeded: bool
    var envVars: seq<string>
    var outputType: Option<OutputType>

    function Cfg(): Config {
      Config(word, decorators, blockName, inputType)
    }

    /** The mutable fields as one value. */
    function State(): Acc
      reads this
    {
      Acc(collectedStatements, firstArgStatements, envVars, outputType,
          osImportNeeded, argparseImportNeeded, pandasImportNeeded)
    }

    method SetState(a: Acc)
      modifies this
      ensures State() == a
    {
      collectedStatements, firstArgStatements, envVars, outputType := a.collected, a.firstArg, a.envVars, a.outputType;
      osImportNeeded, argparseImportNeeded, pandasImportNeeded := a.osNeeded, a.argparseNeeded, a.pandasNeeded;
    }

    constructor (word: string, decorators: seq<string>, blockName: string, previousBlockName: Option<string>, inputType: string)
      ensures Cfg() == Config(word, decorators, blockName, inputType)
      ensures this.previousBlockName == previousBlockName
      ensures State() == InitialAcc
    {
      this.word, this.decorators, this.blockName := word, decorators, blockName;
      this.previousBlockName, this.inputType := previousBlockName, inputType;
      collectedStatements, firstArgStatements, envVars, outputType := [], [], [], None;
      osImportNeeded, argparseImportNeeded, pandasImportNeeded := true, true, true;
    }

    method VisitImport(names: seq<Alias>) returns (out: seq<Stmt>)
      modifies this
      ensures State() == WalkImport(Cfg(), old(State()), names).acc
      ensures out == WalkImport(Cfg(), old(State()), names).out
    {
      var kept := KeepAliases(names, word);
      if kept == [] {
        return [];
      }
      var flags := State();
      ghost var s0 := flags;
      var j := 0;
      assert kept[..0] == [];
      while j < |kept|
        invariant 0 <= j <= |kept|
        invariant flags == ImportFlags(s0, kept[..j]) && State() == s0
      {
        var a := kept[j];
        if a.name == "os" {
          flags := flags.(osNeeded := false);
        }
        if a.name == "argparse" {
          flags := flags.(argparseNeeded := false);
        }
        if a.name == "pandas" || a.asname == Some("pd") {
          flags := flags.(pandasNeeded := false);
        }
        assert kept[..j + 1] == kept[..j] + [a];
        ImportFlagsAppend(s0, kept[..j], a);
        j := j + 1;
      }
      assert kept[..j] == kept;
      assert flags == s0.(osNeeded := flags.osNeeded, argparseNeeded := flags.argparseNeeded, pandasNeeded := flags.pandasNeeded);
      osImportNeeded, argparseImportNeeded, pandasImportNeeded := flags.osNeeded, flags.argparseNeeded, flags.pandasNeeded;
      assert State() == flags;
      out := [Import(kept)];
    }

    method VisitImportFrom(fromModule: Option<string>, names: seq<Alias>) returns (out: seq<Stmt>)
      modifies this
      ensures State() == WalkImportFrom(Cfg(), old(State()), fromModule, names).acc
      ensures out == WalkImportFrom(Cfg(), old(State()), fromModule, names).out
    {
      if fromModule.Some? && Contains(fromModule.value, word) {
        return [];
      }
      if fromModule == Some("os") {
        osImportNeeded := false;
      }
      if fromModule == Some("argparse") {
        argparseImportNeeded := false;
      }
      if fromModule == Some("pandas") {
        pandasImportNeeded := false;
      }
      out := [ImportFrom(fromModule, names)];
    }

    /** The loop of `visit_FunctionDef` that splices the write-output block
      over each top-level `return`, while the list is being iterated. */
    method ReplaceReturns(body0: seq<Stmt>) returns (body: seq<Stmt>)
      modifies this
      ensures State() == ReturnEffects(Cfg(), old(State()), body0)
      ensures body == ExpandReturns(body0, OutputFileVar(blockName))
    {
      var fileVar := OutputFileVar(blockName);
      body := body0;
      var i := 0;
      while i < |body|
        invariant 0 <= i <= |body|
        invariant ReturnEffects(Cfg(), State(), body[i..]) == ReturnEffects(Cfg(), old(State()), body0)
        invariant body[..i] + ExpandReturns(body[i..], fileVar) == ExpandReturns(body0, fileVar)
        decreases CountReturns(body[i..]), |body| - i
      {
        ghost var before := body;
        ghost var acc := State();
        if body[i].Return? {
          var returnVar := body[i].value;
          outputType := Classify(returnVar, outputType);
          envVars := envVars + [fileVar];
          body := body[..i] + [OutputFileRead(fileVar), WriteOutput(returnVar)] + body[i + 1..];
          if returnVar == Attribute("DataFrame") {
            pandasImportNeeded := true;
          }
          SpliceStep(Cfg(), acc, before, i, fileVar);
        } else {
          SkipStep(Cfg(), acc, before, i, fileVar);
        }
        i := i + 1;
      }
    }

    method VisitFunctionDef(fn: Stmt) returns (out: seq<Stmt>)
      requires fn.FunctionDef?
      modifies this
      ensures State() == WalkFunctionDef(Cfg(), old(State()), fn).acc
      ensures out == WalkFunctionDef(Cfg(), old(State()), fn).out
    {
      if HasNameDecorator(fn.decorators, ["test"]) {
        return [];
      }
      if HasNameDecorator(fn.decorators, decorators) {
        var body := StripDocstring(fn.body);
        body := ReplaceReturns(body);
        collectedStatements := collectedStatements + body;
        if |fn.params| > 0 && fn.params[0] != "*args" {
          firstArgStatements := firstArgStatements + [ReadInput(fn.params[0], inputType)];
        }
        return [];
      }
      out := [fn];
    }

    method VisitIf(s: Stmt) returns (out: seq<Stmt>)
      requires s.If?
      modifies this
      ensures State() == WalkIf(Cfg(), old(State()), s).acc
      ensures out == WalkIf(Cfg(), old(State()), s).out
      decreases s, 0
    {
      var body := VisitList(s.body);
      var orelse := VisitList(s.orelse);
      if body == [] {
        return [];
      }
      body := DropEmptyImports(body);
      if body == [] {
        return [];
      }
      out := [If(s.isMain, body, orelse)];
    }

    method Visit(s: Stmt) returns (out: seq<Stmt>)
      modifies this
      ensures State() == WalkStmt(Cfg(), old(State()), s).acc
      ensures out == WalkStmt(Cfg(), old(State()), s).out
      decreases s, 1
    {
      match s
      case Import(names) => out := VisitImport(names);
      case ImportFrom(fromModule, names) => out := VisitImportFrom(fromModule, names);
      case If(_, _, _) => out := VisitIf(s);
      case FunctionDef(_, _, _, _) => out := VisitFunctionDef(s);
      case _ => out := [s];
    }

    /** `generic_visit` on a list field: each statement is replaced by what
      its visit returns. */
    method VisitList(ss: seq<Stmt>) returns (out: seq<Stmt>)
      modifies this
      ensures State() == WalkStmts(Cfg(), old(State()), ss).acc
      ensures out == WalkStmts(Cfg(), old(State()), ss).out
      decreases ss, 2
    {
      out := [];
      var i := 0;
      while i < |ss|
        invariant 0 <= i <= |ss|
        invariant WalkStmts(Cfg(), State(), ss[i..]).acc == WalkStmts(Cfg(), old(State()), ss).acc
        invariant out + WalkStmts(Cfg(), State(), ss[i..]).out == WalkStmts(Cfg(), old(State()), ss).out
      {
        assert ss[i..][1..] == ss[i + 1..];
        assert ss[i..][0] == ss[i];
        var o := Visit(ss[i]);
        out := out + o;
        i := i + 1;
      }
    }
  }

  /** One splice of `ReplaceReturns`: the write-output block replaces the
      `return` at `i`, and the scan resumes after its first statement. */
  lemma SpliceStep(cfg: Config, acc: Acc, body: seq<Stmt>, i: nat, fileVar: string)
    requires i < |body| && body[i].Return?
    ensures var b := body[..i] + [OutputFileRead(fileVar), WriteOutput(body[i].value)] + body[i + 1..];
      && i + 1 < |b|
      && ReturnEffects(cfg, ReturnEffect(cfg, acc, body[i].value), b[i + 1..]) == ReturnEffects(cfg, acc, body[i..])
      && b[..i + 1] + ExpandReturns(b[i + 1..], fileVar) == body[..i] + ExpandReturns(body[i..], fileVar)
      && CountReturns(b[i + 1..]) < CountReturns(body[i..])
  {
    var rest := body[i + 1..];
    var b := body[..i] + [OutputFileRead(fileVar), WriteOutput(body[i].value)] + rest;
    assert body[i..][1..] == rest;
    assert b[i + 1..] == [WriteOutput(body[i].value)] + rest;
    assert b[i + 1..][1..] == rest;
    assert b[..i + 1] == body[..i] + [OutputFileRead(fileVar)];
    assert ExpandReturns(body[i..], fileVar) == [OutputFileRead(fileVar), WriteOutput(body[i].value)] + ExpandReturns(rest, fileVar);
    assert ExpandReturns(b[i + 1..], fileVar) == [WriteOutput(body[i].value)] + ExpandReturns(rest, fileVar);
  }

  /** One step of `ReplaceReturns` past a statement that is not a `return`. */
  lemma SkipStep(cfg: Config, acc: Acc, body: seq<Stmt>, i: nat, fileVar: string)
    requires i < |body| && !body[i].Return?
    ensures ReturnEffects(cfg, acc, body[i + 1..]) == ReturnEffects(cfg, acc, body[i..])
    ensures body[..i + 1] + ExpandReturns(body[i + 1..], fileVar) == body[..i] + ExpandReturns(body[i..], fileVar)
    ensures CountReturns(body[i + 1..]) == CountReturns(body[i..])
  {
    var here, rest := body[i..], body[i + 1..];
    assert here[0] == body[i] && here[1..] == rest;
    assert ReturnEffects(cfg, acc, here) == ReturnEffects(cfg, acc, rest);
    assert ExpandReturns(here, fileVar) == [body[i]] + ExpandReturns(rest, fileVar);
    assert CountReturns(here) == CountReturns(rest);
    assert body[..i + 1] == body[..i] + [body[i]];
  }

  lemma {:induction false} ImportFlagsAppend(acc: Acc, names: seq<Alias>, a: Alias)
    ensures ImportFlags(acc, names + [a]) == ImportFlag(ImportFlags(acc, names), a)
    decreases |names|
  {
    if names == [] {
      assert ImportFlags(ImportFlag(acc, a), []) == ImportFlag(acc, a);
    } else {
      assert (names + [a])[1..] == names[1..] + [a];
      ImportFlagsAppend(ImportFlag(acc, names[0]), names[1..], a);
    }
  }

  /** `remove_imports_with_word`: parse, walk, assemble, unparse. A syntax
      error in the block aborts the whole conversion. */
  method RemoveImportsWithWord(codeString: string, word: string, inputType: string, blockName: string,
                               previousBlockName: Option<string>,
                               parse: string -> Option<seq<Stmt>>, unparse: seq<Stmt> -> string)
    returns (r: Option<(string, seq<string>, Option<OutputType>)>)
    ensures parse(codeString).None? ==> r.None?
    ensures parse(codeString).Some? ==>
      var n := Normalise(Config(word, RoleDecorators, blockName, inputType), parse(codeString).value);
      r == Some((unparse(n.stmts), n.envVars, n.outputType))
  {
    var tree := parse(codeString);
    if tree.None? {
      return None;
    }
    var transformer := new MageToPythonTransformer(word, RoleDecorators, blockName, previousBlockName, inputType);
    var cleaned := transformer.VisitList(tree.value);
    ghost var v := WalkStmts(Config(word, RoleDecorators, blockName, inputType), InitialAcc, tree.value);
    assert transformer.State() == v.acc && cleaned == v.out;
    var main := FindMain(cleaned);
    if main.None? {
      cleaned := cleaned + [If(true, [], [])];
      main := Some(|cleaned| - 1);
    }
    var k := main.value;
    ghost var withMain := cleaned;
    assert cleaned[k].If?;
    var mainBody := transformer.firstArgStatements + cleaned[k].body;
    mainBody := mainBody + transformer.collectedStatements;
    cleaned := cleaned[k := If(true, mainBody, cleaned[k].orelse)];
    if FindMain(v.out).None? {
      assert withMain == v.out + [If(true, [], [])];
      assert mainBody == v.acc.firstArg + v.acc.collected;
      assert cleaned == v.out + [If(true, v.acc.firstArg + v.acc.collected, [])];
    }
    assert cleaned == SpliceMain(v.out, v.acc);
    if transformer.osImportNeeded {
      cleaned := [OsImport] + cleaned;
    }
    if transformer.pandasImportNeeded {
      cleaned := InsertAt(cleaned, 1, PandasImport);
    }
    r := Some((unparse(cleaned), transformer.envVars, transformer.outputType));
  }
}
