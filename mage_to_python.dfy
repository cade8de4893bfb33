/** The per-block converter of mage_to_cwl/mage_to_python.py: rewrite the
    framework idioms in the text, normalise the syntax tree, then run the two
    formatters.

    The parser, the unparser and the formatters are parameters (`Tools`); a
    tool that raises is a `None` result. The cross-file calls in the source do
    not match the callees' signatures (mage_to_python.py:62 passes a
    `repo_name` keyword `replace_code_patterns` does not take;
    mage_to_python.py:63 passes four positional values to a five-parameter
    function and unpacks three results into two). The model follows the
    intended wiring: the rewrite, then `remove_imports_with_word` with the
    word `mage_ai`, this block's input type, its name and its predecessor's
    name, keeping all three results. */
module MageToPythonBlock {
  import opened Wrappers
  import opened PyAst
  import CodePatterns
  import MageToPythonUtils

  datatype Tools = Tools(
    parse: string -> Option<seq<Stmt>>,
    unparse: seq<Stmt> -> string,
    autopep8: string -> Option<string>,
    black: string -> Option<string>)

  /** The converted block. */
  datatype Conversion = Conversion(code: string, envVars: seq<string>, outputType: Option<OutputType>)

  /** A formatter pass: its output, or the code unchanged when it raises. */
  function Formatted(code: string, formatter: string -> Option<string>): string {
    match formatter(code)
    case Some(c) => c
    case None => code
  }

  function Config(blockName: string, inputType: string): MageToPythonUtils.Config {
    MageToPythonUtils.Config("mage_ai", MageToPythonUtils.RoleDecorators, blockName, inputType)
  }

  /** What `mage_to_python` computes; a syntax error in the rewritten block
      aborts the conversion. */
  function Converted(code: string, blockName: string, inputType: string, tools: Tools): Result<Conversion, string> {
    var rewrite := CodePatterns.RewriteCode(code);
    match tools.parse(rewrite.text)
    case None => Failure("SyntaxError")
    case Some(tree) =>
      var n := MageToPythonUtils.Normalise(Config(blockName, inputType), tree);
      var formatted := Formatted(Formatted(tools.unparse(n.stmts), tools.autopep8), tools.black);
      Success(Conversion(formatted, rewrite.vars + n.envVars, n.outputType))
  }

  /** The names a conversion reports: those of the `kwargs.get` lookups in
      order, then one `PASSWORD` per password fetch, then one
      `<BLOCK_NAME>_OUTPUT_FILE` per replaced `return`. */
  lemma ConvertedEnvVars(code: string, blockName: string, inputType: string, tools: Tools)
    requires Converted(code, blockName, inputType, tools).Success?
    ensures var e := Converted(code, blockName, inputType, tools).value.envVars;
      var kw := CodePatterns.Sub(code, CodePatterns.KwargsAt).vars;
      var rw := CodePatterns.RewriteCode(code).vars;
      && |kw| <= |rw| <= |e|
      && e[..|kw|] == kw
      && (forall i :: |kw| <= i < |rw| ==> e[i] == "PASSWORD")
      && (forall i :: |rw| <= i < |e| ==> e[i] == MageToPythonUtils.OutputFileVar(blockName))
  {
    var rw := CodePatterns.RewriteCode(code);
    CodePatterns.RewriteCodeVars(code);
    var n := MageToPythonUtils.Normalise(Config(blockName, inputType), tools.parse(rw.text).value);
    MageToPythonUtils.NormaliseEnvVars(Config(blockName, inputType), tools.parse(rw.text).value);
    var e := rw.vars + n.envVars;
    assert forall i :: |rw.vars| <= i < |e| ==> e[i] == n.envVars[i - |rw.vars|];
  }

  /** The passes run in the order rewrite, normalise, autopep8, black: the
      formatters see the unparsed normalised tree of the rewritten text, and a
      formatter that raises is skipped. */
  lemma ConvertedPipeline(code: string, blockName: string, inputType: string, tools: Tools)
    requires tools.parse(CodePatterns.RewriteCode(code).text).Some?
    ensures var tree := tools.parse(CodePatterns.RewriteCode(code).text).value;
      var unparsed := tools.unparse(MageToPythonUtils.Normalise(Config(blockName, inputType), tree).stmts);
      var c := Converted(code, blockName, inputType, tools);
      && c.Success?
      && (tools.autopep8(unparsed).None? && tools.black(unparsed).None? ==> c.value.code == unparsed)
      && (tools.autopep8(unparsed).Some? && tools.black(tools.autopep8(unparsed).value).Some? ==>
            c.value.code == tools.black(tools.autopep8(unparsed).value).value)
      && (tools.autopep8(unparsed).Some? && tools.black(tools.autopep8(unparsed).value).None? ==>
            c.value.code == tools.autopep8(unparsed).value)
      && (tools.autopep8(unparsed).None? && tools.black(unparsed).Some? ==>
            c.value.code == tools.black(unparsed).value)
  {
  }

  /** A block being converted: the source's `MageToPython` object. */
  class MageToPython {
    var codeString: string
    var envVars: Option<seq<string>>
    const blockName: string
    const previousBlockName: Option<string>
    const repoName: string
    /** Intended wiring: the input type the normaliser is given. */
    const inputType: string
    /** Intended wiring: the output type the normaliser reports, which
        mage_to_cwl.py:23 reads from the previous block's object. */
    var outputType: Option<OutputType>

    constructor (codeString: string, blockName: string, repoName: string, previousBlockName: Option<string>, inputType: string)
      ensures this.codeString == codeString && envVars == None && outputType == None
      ensures this.blockName == blockName && this.repoName == repoName
      ensures this.previousBlockName == previousBlockName && this.inputType == inputType
    {
      this.codeString, envVars, outputType := codeString, None, None;
      this.blockName, this.repoName := blockName, repoName;
      this.previousBlockName, this.inputType := previousBlockName, inputType;
    }

    /** `_format_code_autopep8`: the formatted code replaces the code unless
        the formatter raises. */
    method FormatCodeAutopep8(autopep8: string -> Option<string>)
      modifies this
      ensures codeString == Formatted(old(codeString), autopep8)
      ensures autopep8(old(codeString)).None? ==> codeString == old(codeString)
      ensures envVars == old(envVars) && outputType == old(outputType)
    {
      var formatted := autopep8(codeString);
      if formatted.Some? {
        codeString := formatted.value;
      }
    }

    /** `_format_code_black`, like `FormatCodeAutopep8`. */
    method FormatCodeBlack(black: string -> Option<string>)
      modifies this
      ensures codeString == Formatted(old(codeString), black)
      ensures black(old(codeString)).None? ==> codeString == old(codeString)
      ensures envVars == old(envVars) && outputType == old(outputType)
    {
      var formatted := black(codeString);
      if formatted.Some? {
        codeString := formatted.value;
      }
    }

    /** `_remove_mage_imports`: the rewrite's names come first, the
        normaliser's after them. On a syntax error the rewrite has already
        been stored. */
    method RemoveMageImports(parse: string -> Option<seq<Stmt>>, unparse: seq<Stmt> -> string) returns (ok: bool)
      modifies this
      ensures var rw := CodePatterns.RewriteCode(old(codeString));
        && (ok <==> parse(rw.text).Some?)
        && (!ok ==> codeString == rw.text && envVars == Some(rw.vars) && outputType == old(outputType))
        && (ok ==>
              var n := MageToPythonUtils.Normalise(Config(blockName, inputType), parse(rw.text).value);
              codeString == unparse(n.stmts) && envVars == Some(rw.vars + n.envVars) && outputType == n.outputType)
    {
      var code, vars := CodePatterns.ReplaceCodePatterns(codeString);
      codeString, envVars := code, Some(vars);
      var r := MageToPythonUtils.RemoveImportsWithWord(codeString, "mage_ai", inputType, blockName, previousBlockName, parse, unparse);
      if r.None? {
        return false;
      }
      var (cleaned, moreVars, kind) := r.value;
      codeString, envVars, outputType := cleaned, Some(vars + moreVars), kind;
      ok := true;
    }

    /** `mage_to_python`. */
    method Convert(tools: Tools) returns (ok: bool)
      modifies this
      ensures var c := Converted(old(codeString), blockName, inputType, tools);
        && (ok <==> c.Success?)
        && (ok ==> codeString == c.value.code && envVars == Some(c.value.envVars) && outputType == c.value.outputType)
    {
      ok := RemoveMageImports(tools.parse, tools.unparse);
      if !ok {
        return;
      }
      FormatCodeAutopep8(tools.autopep8);
      FormatCodeBlack(tools.black);
    }
  }
}
