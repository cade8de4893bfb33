/** The bundle assembler of mage_to_cwl/mage_to_cwl.py: converts the
    blocks of a pipeline in order, each knowing its predecessor's name, and
    builds the CWL v1.2 documents of the export as a map from file paths to
    contents.

    YAML documents are values of `Yaml` (maps, lists and strings); the
    dumper (`yaml.safe_dump`) is a parameter. The step-tool templates are
    kept as lists of literal text and placeholders (`Piece`): the text the
    source writes is the list with every placeholder spelled as itself
    (`TemplateText`), and a tool description is that text put through the
    source's chain of `str.replace` calls (`ToolText`). The chain fills each
    placeholder exactly once (`Render`) when the names fit: no `id:` in them,
    none ending in `id`, and no `block_name` in a previous name
    (`ToolTextFills`). A previous name containing `block_name` is mangled by
    the chain (`PrevNameMangled`).

    The source's own call sites do not match: `MageToCWL` takes one argument
    yet its caller passes the pipeline name too, and `_transform_mage_to_python`
    calls `MageToPython` with too few arguments for the first block and, for
    the others, passes the previous block's name as the repository name and
    its (non-existent) `output_type` attribute as the previous block's name.
    The model follows the intended wiring: the pipeline name is the
    repository name, block i > 0 gets block i - 1's name as its previous
    name and block i - 1's output type as its input type, and block 0 gets
    no previous name and the input type `pandas`. */
module MageToCwl {
  import opened Wrappers
  import opened PyAst
  import MageToPythonBlock
  import Text

  datatype Yaml = YStr(s: string) | YMap(m: map<string, Yaml>) | YList(items: seq<Yaml>)

  /** A block as the platform API returns it: its `uuid`, `content`,
      `upstream_blocks` and `downstream_blocks`. */
  datatype Block = Block(uuid: string, content: string, upstreamBlocks: seq<string>, downstreamBlocks: seq<string>)

  /** A converted block: the fields of its `MageToPython` object after
      conversion. */
  datatype Entry = Entry(
    blockName: string,
    previousBlockName: Option<string>,
    codeString: string,
    envVars: seq<string>,
    outputType: Option<OutputType>)

  // ---------------------------------------------------------------------
  // Templates

  /** Literal template text, or a placeholder: `block_name`, `prev_block_name`
      or the `id:` key. */
  datatype Piece = Lit(text: string) | BlockNameSlot | PrevNameSlot | IdSlot

  /** The text of one piece, with the given texts for the placeholders. */
  function PieceText(piece: Piece, name: string, prev: string, id: string): string {
    match piece
    case Lit(t) => t
    case BlockNameSlot => name
    case PrevNameSlot => prev
    case IdSlot => id
  }

  /** The template with its placeholders written as `name`, `prev` and
      `id`. */
  function Fill(pieces: seq<Piece>, name: string, prev: string, id: string): string
    decreases |pieces|
  {
    if pieces == [] then ""
    else PieceText(pieces[0], name, prev, id) + Fill(pieces[1..], name, prev, id)
  }

  /** The template text as the source writes it. */
  function TemplateText(pieces: seq<Piece>): string {
    Fill(pieces, "block_name", "prev_block_name", "id:")
  }

  /** The template with `block_name` replaced by `name`, `prev_block_name` by
      `prev`, and `id:` by `id: <name>`, each placeholder once. */
  function Render(pieces: seq<Piece>, name: string, prev: string): string {
    Fill(pieces, name, prev, "id: " + name)
  }

  /** The lines both step-tool templates start with, up to `inputs:`. */
  const ToolHeader: seq<Piece> := [
    Lit("\n"),
    Lit("        cwlVersion: v1.2\n"),
    Lit("        class: "), Lit("CommandLineTool\n"),
    Lit("        "), IdSlot, Lit("\n"),
    Lit("        baseCommand: "), Lit("[bash, -c]\n"),
    Lit("\n"),
    Lit("        inputs:\n")
  ]

  /** A string input bound at command-line position `position`. */
  function StringInput(name: Piece, position: string): seq<Piece> {
    [Lit("          "), name, Lit(":\n"),
     Lit("            type: string\n"),
     Lit("            inputBinding"), Lit(":\n"),
     Lit("              position: " + position + "\n")]
  }

  /** The output file named after the block. */
  const ToolOutputs: seq<Piece> := [
    Lit("\n"),
    Lit("        outputs:\n"),
    Lit("          "), BlockNameSlot, Lit(":\n"),
    Lit("            type: File\n"),
    Lit("            outputBinding"), Lit(":\n"),
    Lit("              glob: "), BlockNameSlot, Lit("\n"),
    Lit("              \n")
  ]

  /** The `bash -c` argument that runs the block's script; `position` is
      the argument holding the scripts directory. The backslash-newline pairs
      of the source's string literal are line continuations, so each `&&` is
      followed by the next line's indentation. */
  function ScriptArgument(position: string): seq<Piece> {
    [Lit("        arguments:\n"),
     Lit("          - valueFrom: |\n"),
     Lit("              set -e && "),
     Lit("              export "), Lit("PYTHONPATH=$" + position), Lit(":$PYTHONPATH && "),
     Lit("              python "), Lit("$(inputs.scripts_" + "directory.path)/"), Lit("$(inputs."), BlockNameSlot, Lit(")\n"),
     Lit("        \n")]
  }

  /** The empty argument bound at position 0 with the prefix `--`. */
  const EmptyArgument: seq<Piece> := [
    Lit("          - position: 0\n"),
    Lit("            prefix: --\n"),
    Lit("            valueFrom: \"\"\n"),
    Lit("        ")
  ]

  /** Everything after the inputs. */
  function ToolTail(position: string): seq<Piece> {
    ToolOutputs + ScriptArgument(position) + EmptyArgument
  }

  /** `_first_step_template`: the block name at position 1, the scripts
      directory at position 2. */
  const FirstStepTemplate: seq<Piece> :=
    ToolHeader + StringInput(BlockNameSlot, "1") + StringInput(Lit("scripts_directory"), "2") + ToolTail("2")

  /** `_step_template`: as the first step's, with the previous block's name
      at position 2 and the scripts directory at position 3. */
  const StepTemplate: seq<Piece> :=
    ToolHeader + StringInput(BlockNameSlot, "1") + StringInput(PrevNameSlot, "2")
    + StringInput(Lit("scripts_directory"), "3") + ToolTail("3")

  /** `_install_script`. */
  const InstallScript: string :=
    "\n" +
    "        cwlVersion: v1.2\n" +
    "        class: CommandLineTool\n" +
    "        id: install_requirements" +
    "\n" +
    "        baseCommand: [bash, -c]\n" +
    "        \n" +
    "        requirements:\n" +
    "          InlineJavascriptRequir" +
    "ement: {}\n" +
    "        \n" +
    "        inputs:\n" +
    "          scripts_folder:\n" +
    "            type: Directory\n" +
    "            inputBinding:\n" +
    "              position: 1\n" +
    "        \n" +
    "        outputs:\n" +
    "          requirements_file:\n" +
    "            type: File\n" +
    "            outputBinding:\n" +
    "              glob: scripts/requ" +
    "irements.txt\n" +
    "        \n" +
    "        arguments:\n" +
    "          - valueFrom: |\n" +
    "              set -e\n" +
    "              export PATH=$HOME/" +
    ".local/bin:$PATH &&             " +
    "  pip install --user pipreqs && " +
    "              pipreqs --force $1" +
    "/requirements &&               p" +
    "ip install --target $1/requireme" +
    "nts -r $1/requirements/requireme" +
    "nts.txt\n" +
    "        \n" +
    "          - position: 0\n" +
    "            prefix: --\n" +
    "            valueFrom: \"\"\n" +
    "        "

  // ---------------------------------------------------------------------
  // The fixed documents

  function Scalar(s: string): Yaml {
    YStr(s)
  }

  /** `_inputs`: the scripts folder as a `./scripts` directory. */
  const InitialInputs: map<string, Yaml> :=
    map["scripts_folder" := YMap(map["class" := Scalar("Directory"), "path" := Scalar("./scripts")])]

  /** The `inputs` section of `_workflow`. */
  const InitialWorkflowInputs: map<string, Yaml> :=
    map["scripts_folder" := YMap(map["type" := Scalar("Directory")])]

  /** The `steps` section of `_workflow`: the `install_requirements` step. */
  const InitialSteps: map<string, Yaml> :=
    map["install_requirements" := YMap(map[
      "run" := Scalar("./steps/install_requirements.cwl"),
      "in" := YMap(map["scripts_folder" := Scalar("scripts_folder")]),
      "out" := YList([Scalar("requirements_file")])])]

  /** The `_workflow` document with the given sections. */
  function WorkflowDoc(inputs: map<string, Yaml>, outputs: Yaml, steps: map<string, Yaml>): Yaml {
    YMap(map[
      "cwlVersion" := Scalar("v1.2"),
      "class" := Scalar("Workflow"),
      "id" := Scalar("workflow"),
      "inputs" := YMap(inputs),
      "outputs" := outputs,
      "steps" := YMap(steps)])
  }

  /** The files map as `__init__` creates it. */
  const InitialFiles: map<string, Option<string>> := map["scripts/requirements/" := None]

  // ---------------------------------------------------------------------
  // Construction and conversion

  /** The error `__init__` raises: an `IndexError` for an empty block list,
      a `ValueError` when the first block has an upstream block. */
  function ConstructionError(blocks: seq<Block>): (r: Option<string>)
    ensures r.None? <==> |blocks| > 0 && blocks[0].upstreamBlocks == []
    ensures |blocks| > 0 && r.Some? ==> r.value == "ValueError"
  {
    if |blocks| == 0 then Some("IndexError")
    else if |blocks[0].upstreamBlocks| > 0 then Some("ValueError")
    else None
  }

  /** The name of an output type as it appears in generated code. */
  function OutputTypeName(t: Option<OutputType>): string {
    match t
    case None => "None"
    case Some(Pandas) => "pandas"
    case Some(Dict) => "dict"
    case Some(Str) => "str"
  }

  /** A block converter: content, block name and input type to the converted
      block or an error. */
  type Converter = (string, string, string) -> Result<MageToPythonBlock.Conversion, string>

  /** The converter `mage_to_python` implements, with the given tools. */
  function ConverterOf(tools: MageToPythonBlock.Tools): Converter {
    (content: string, name: string, inputType: string) => MageToPythonBlock.Converted(content, name, inputType, tools)
  }

  /** The input type block `i` is converted with. */
  function InputTypeFor(i: nat, done: seq<Entry>): string
    requires |done| == i
  {
    if i == 0 then "pandas" else OutputTypeName(done[i - 1].outputType)
  }

  /** The conversion of block `i`, given the entries before it. */
  function NextEntry(blocks: seq<Block>, i: nat, done: seq<Entry>, convert: Converter): Result<Entry, string>
    requires i < |blocks| && |done| == i
  {
    var b := blocks[i];
    var prev := if i == 0 then None else Some(done[i - 1].blockName);
    match convert(b.content, b.uuid, InputTypeFor(i, done))
    case Failure(e) => Failure(e)
    case Success(c) => Success(Entry(b.uuid, prev, c.code, c.envVars, c.outputType))
  }

  /** The entries of the first `n` blocks, or the first conversion error. */
  function Transformed(blocks: seq<Block>, n: nat, convert: Converter): (r: Result<seq<Entry>, string>)
    requires n <= |blocks|
    ensures r.Success? ==> |r.value| == n
  {
    if n == 0 then Success([])
    else match Transformed(blocks, n - 1, convert)
      case Failure(e) => Failure(e)
      case Success(done) =>
        match NextEntry(blocks, n - 1, done, convert)
        case Failure(e) => Failure(e)
        case Success(entry) => Success(done + [entry])
  }

  /** One more successful conversion extends the entries by one. */
  lemma TransformedStep(blocks: seq<Block>, i: nat, convert: Converter, done: seq<Entry>)
    requires i < |blocks|
    requires Transformed(blocks, i, convert) == Success(done)
    requires NextEntry(blocks, i, done, convert).Success?
    ensures Transformed(blocks, i + 1, convert) == Success(done + [NextEntry(blocks, i, done, convert).value])
  {
  }

  /** The conversion of a prefix of the blocks is the prefix of the conversion. */
  lemma {:induction false} TransformedPrefix(blocks: seq<Block>, n: nat, convert: Converter, i: nat)
    requires i <= n <= |blocks|
    requires Transformed(blocks, n, convert).Success?
    ensures Transformed(blocks, i, convert) == Success(Transformed(blocks, n, convert).value[..i])
    decreases n
  {
    var rs := Transformed(blocks, n, convert).value;
    if i < n {
      var done := Transformed(blocks, n - 1, convert).value;
      assert rs == done + [NextEntry(blocks, n - 1, done, convert).value];
      TransformedPrefix(blocks, n - 1, convert, i);
      assert rs[..i] == done[..i];
    } else {
      assert rs[..i] == rs;
    }
  }

  /** Entry i is the conversion of block i given the entries before it. */
  lemma TransformedEntry(blocks: seq<Block>, n: nat, convert: Converter, i: nat)
    requires i < n <= |blocks|
    requires Transformed(blocks, n, convert).Success?
    ensures var rs := Transformed(blocks, n, convert).value;
      NextEntry(blocks, i, rs[..i], convert) == Success(rs[i])
  {
    var rs := Transformed(blocks, n, convert).value;
    TransformedPrefix(blocks, n, convert, i + 1);
    TransformedPrefix(blocks, n, convert, i);
    assert rs[..i + 1] == rs[..i] + [rs[i]];
  }

  /** Entry i is block i converted and named after it. The first has no
      previous name and is converted with the input type `pandas`; each later
      one names the block before it and is converted with the output type the
      entry before it reports. */
  lemma TransformedChain(blocks: seq<Block>, n: nat, convert: Converter, i: nat)
    requires i < n <= |blocks|
    requires Transformed(blocks, n, convert).Success?
    ensures var rs := Transformed(blocks, n, convert).value;
      var c := convert(blocks[i].content, blocks[i].uuid, if i == 0 then "pandas" else OutputTypeName(rs[i - 1].outputType));
      && rs[i].blockName == blocks[i].uuid
      && rs[i].previousBlockName == (if i == 0 then None else Some(blocks[i - 1].uuid))
      && c.Success? && rs[i].codeString == c.value.code && rs[i].envVars == c.value.envVars
      && rs[i].outputType == c.value.outputType
  {
    var rs := Transformed(blocks, n, convert).value;
    TransformedEntry(blocks, n, convert, i);
    if i > 0 {
      TransformedEntry(blocks, n, convert, i - 1);
    }
  }

  /** A block's conversion error aborts the whole export. */
  lemma {:induction false} TransformedFailure(blocks: seq<Block>, n: nat, k: nat, convert: Converter)
    requires k < n <= |blocks|
    requires Transformed(blocks, k, convert).Success?
    requires NextEntry(blocks, k, Transformed(blocks, k, convert).value, convert).Failure?
    ensures Transformed(blocks, n, convert) == Failure(NextEntry(blocks, k, Transformed(blocks, k, convert).value, convert).error)
    decreases n
  {
    if n - 1 > k {
      TransformedFailure(blocks, n - 1, k, convert);
    }
  }

  // ---------------------------------------------------------------------
  // What `process` adds

  /** Successive dictionary assignments `m[k] = v`. */
  function SetAll<V>(m: map<string, V>, kvs: seq<(string, V)>): map<string, V>
    decreases |kvs|
  {
    if kvs == [] then m else SetAll(m, kvs[..|kvs| - 1])[kvs[|kvs| - 1].0 := kvs[|kvs| - 1].1]
  }

  lemma SetAllAppend<V>(m: map<string, V>, kvs: seq<(string, V)>, kv: (string, V))
    ensures SetAll(m, kvs + [kv]) == SetAll(m, kvs)[kv.0 := kv.1]
  {
    assert (kvs + [kv])[..|kvs|] == kvs;
  }

  /** The workflow output of a block: the file its step produces. */
  function OutputValue(name: string): Yaml {
    YMap(map["type" := Scalar("File"), "outputSource" := Scalar(name + "/" + name)])
  }

  /** The previous name a later step refers to. Every entry after the first
      has one (`TransformedChain`). */
  function PrevName(r: Entry): string {
    match r.previousBlockName
    case Some(p) => p
    case None => ""
  }

  /** The workflow step of result `i`: it runs its own tool, produces one
      output named after the block, and takes the block's name, the previous
      block's name (after the first) and the scripts folder. */
  function StepValue(i: nat, r: Entry): Yaml {
    var n := r.blockName;
    var inMap := if i == 0 then map[n := Scalar(n)]["scripts_directory" := Scalar("scripts_folder")]
                 else map[n := Scalar(n)][PrevName(r) := Scalar(PrevName(r))]["scripts_directory" := Scalar("scripts_folder")];
    YMap(map["run" := Scalar("./steps/" + n + ".cwl"), "in" := YMap(inMap), "out" := YList([Scalar(n)])])
  }

  /** The tool description of result `i`: the template text with
      `prev_block_name` (after the first block), then `block_name`, then
      `id:` replaced, each everywhere. */
  function ToolText(i: nat, r: Entry): string {
    var name := r.blockName;
    var named := if i == 0 then Text.ReplaceAll(TemplateText(FirstStepTemplate), "block_name", name)
                 else Text.ReplaceAll(Text.ReplaceAll(TemplateText(StepTemplate), "prev_block_name", PrevName(r)), "block_name", name);
    Text.ReplaceAll(named, "id:", "id: " + name)
  }

  function ScriptPath(name: string): string {
    "scripts/" + name + ".py"
  }

  function ToolPath(name: string): string {
    "steps/" + name + ".cwl"
  }

  /** The two files of each result, in the order `process` writes them, the
      tool description of result `i` being `tool(i, rs[i])`. */
  function FilePairs(rs: seq<Entry>, tool: (nat, Entry) -> string): (r: seq<(string, Option<string>)>)
    ensures |r| == 2 * |rs|
    decreases |rs|
  {
    if rs == [] then []
    else
      var i := |rs| - 1;
      FilePairs(rs[..i], tool) + [(ScriptPath(rs[i].blockName), Some(rs[i].codeString)), (ToolPath(rs[i].blockName), Some(tool(i, rs[i])))]
  }

  /** The four documents `process` fills in: `inputs.yml`, and the inputs,
      outputs and steps of the workflow. The outputs are a mapping from the
      start: the source loads them as a list, on which the assignment by
      block name fails (`OutputsAsWrittenFail`). */
  datatype Docs = Docs(
    inputs: map<string, Yaml>,
    workflowInputs: map<string, Yaml>,
    outputs: map<string, Yaml>,
    steps: map<string, Yaml>)

  const InitialDocs: Docs := Docs(InitialInputs, InitialWorkflowInputs, map[], InitialSteps)

  /** The assignments `process` makes for result `i`. */
  function AddEntry(d: Docs, i: nat, r: Entry): Docs {
    var n := r.blockName;
    Docs(d.inputs[n := Scalar(n + ".py")],
         d.workflowInputs[n := YMap(map["type" := Scalar("string")])],
         d.outputs[n := OutputValue(n)],
         d.steps[n := StepValue(i, r)])
  }

  /** The documents after the assignments for all of `rs`. */
  function DocsOf(rs: seq<Entry>): Docs
    decreases |rs|
  {
    if rs == [] then InitialDocs else AddEntry(DocsOf(rs[..|rs| - 1]), |rs| - 1, rs[|rs| - 1])
  }

  /** The files after `process`, starting from `files0`. */
  function FilesOf(files0: map<string, Option<string>>, rs: seq<Entry>, dump: Yaml -> string): map<string, Option<string>> {
    FilesSoFar(files0["install_requirements.cwl" := Some(InstallScript)], rs, ToolText)
      ["inputs.yml" := Some(dump(YMap(DocsOf(rs).inputs)))]
      ["workflow.cwl" := Some(dump(WorkflowDoc(DocsOf(rs).workflowInputs, YMap(DocsOf(rs).outputs), DocsOf(rs).steps)))]
  }

  // ---------------------------------------------------------------------
  // The object

  class MageToCWL {
    const blocks: seq<Block>
    /** Intended wiring: the pipeline name the caller passes. */
    const pipelineName: string
    var results: seq<Entry>
    var files: map<string, Option<string>>

    constructor (blocks: seq<Block>, pipelineName: string)
      requires ConstructionError(blocks).None?
      ensures this.blocks == blocks && this.pipelineName == pipelineName
      ensures results == [] && files == InitialFiles
    {
      this.blocks, this.pipelineName := blocks, pipelineName;
      results, files := [], InitialFiles;
    }

    /** `_transform_mage_to_python`: converts the blocks in order, appending
        one entry per block; a conversion error stops it. */
    method TransformMageToPython(tools: MageToPythonBlock.Tools) returns (r: Result<seq<Entry>, string>)
      requires results == []
      modifies this`results
      ensures r == Transformed(blocks, |blocks|, ConverterOf(tools))
      ensures r.Success? ==> results == r.value
    {
      r := TransformBlocks(blocks, pipelineName, tools);
      if r.Success? {
        results := r.value;
      }
    }

    /** `process`: converts the blocks, then fills the `inputs` and workflow
        documents and the files map one block at a time. */
    method Process(tools: MageToPythonBlock.Tools, dump: Yaml -> string) returns (r: Result<(), string>)
      requires results == []
      modifies this
      ensures var t := Transformed(blocks, |blocks|, ConverterOf(tools));
        && (r.Success? <==> t.Success?)
        && (r.Failure? ==> files == old(files))
        && (r.Success? ==> results == t.value && files == FilesOf(old(files), results, dump))
    {
      var t := TransformMageToPython(tools);
      if t.Failure? {
        return Failure(t.error);
      }
      files := BuildFiles(files, results, dump);
      r := Success(());
    }
  }

  /** The part of `process` after the conversion: the install tool, the
      loop over the results, and the two YAML dumps. */
  method BuildFiles(files0: map<string, Option<string>>, rs: seq<Entry>, dump: Yaml -> string) returns (fs: map<string, Option<string>>)
    ensures fs == FilesOf(files0, rs, dump)
  {
    fs := files0["install_requirements.cwl" := Some(InstallScript)];
    var docs;
    docs, fs := FillDocuments(rs, fs);
    fs := fs["inputs.yml" := Some(dump(YMap(docs.inputs)))];
    fs := fs["workflow.cwl" := Some(dump(WorkflowDoc(docs.workflowInputs, YMap(docs.outputs), docs.steps)))];
    FilesOfUnfold(files0, rs, dump);
  }

  /** The loop of `_transform_mage_to_python`. */
  method TransformBlocks(blocks: seq<Block>, repoName: string, tools: MageToPythonBlock.Tools) returns (r: Result<seq<Entry>, string>)
    ensures r == Transformed(blocks, |blocks|, ConverterOf(tools))
  {
    var done: seq<Entry> := [];
    var i := 0;
    while i < |blocks|
      invariant i <= |blocks|
      invariant Transformed(blocks, i, ConverterOf(tools)) == Success(done)
    {
      var next := ConvertBlock(blocks, i, done, repoName, tools);
      if next.Failure? {
        TransformedFailure(blocks, |blocks|, i, ConverterOf(tools));
        return Failure(next.error);
      }
      TransformedStep(blocks, i, ConverterOf(tools), done);
      done := done + [next.value];
      i := i + 1;
    }
    r := Success(done);
  }

  /** One iteration of `_transform_mage_to_python`: a `MageToPython` object
      for block `i`, named after it, given the previous entry's name and
      output type, then converted. */
  method ConvertBlock(blocks: seq<Block>, i: nat, done: seq<Entry>, repoName: string, tools: MageToPythonBlock.Tools)
    returns (r: Result<Entry, string>)
    requires i < |blocks| && |done| == i
    ensures r == NextEntry(blocks, i, done, ConverterOf(tools))
  {
    var b := blocks[i];
    var prevName: Option<string> := None;
    if i > 0 {
      prevName := Some(done[i - 1].blockName);
    }
    var inputType := InputTypeFor(i, done);
    var entry := new MageToPythonBlock.MageToPython(b.content, b.uuid, repoName, prevName, inputType);
    var ok := entry.Convert(tools);
    if !ok {
      return Failure("SyntaxError");
    }
    r := Success(Entry(entry.blockName, entry.previousBlockName, entry.codeString, entry.envVars.value, entry.outputType));
  }

  /** The loop of `process`: for each converted block in order, its script
      and tool files and its entries in the four documents. */
  method FillDocuments(rs: seq<Entry>, files0: map<string, Option<string>>) returns (docs: Docs, fs: map<string, Option<string>>)
    ensures docs == DocsOf(rs) && fs == FilesSoFar(files0, rs, ToolText)
  {
    var inputs, workflowInputs, outputs, steps := InitialInputs, InitialWorkflowInputs, map[], InitialSteps;
    fs := files0;
    var i := 0;
    while i < |rs|
      invariant i <= |rs|
      invariant Docs(inputs, workflowInputs, outputs, steps) == DocsOf(rs[..i])
      invariant fs == FilesSoFar(files0, rs[..i], ToolText)
    {
      var result := rs[i];
      var name := result.blockName;
      ghost var before := Docs(inputs, workflowInputs, outputs, steps);
      fs := fs[ScriptPath(name) := Some(result.codeString)];
      inputs := inputs[name := Scalar(name + ".py")];
      workflowInputs := workflowInputs[name := YMap(map["type" := Scalar("string")])];
      outputs := outputs[name := OutputValue(name)];
      steps := steps[name := StepValue(i, result)];
      fs := fs[ToolPath(name) := Some(ToolText(i, result))];
      WriteStep(files0, rs, i, ToolText);
      assert Docs(inputs, workflowInputs, outputs, steps) == AddEntry(before, i, result);
      i := i + 1;
    }
    assert rs[..i] == rs;
    docs := Docs(inputs, workflowInputs, outputs, steps);
  }

  lemma FilesOfUnfold(files0: map<string, Option<string>>, rs: seq<Entry>, dump: Yaml -> string)
    ensures FilesOf(files0, rs, dump)
         == FilesSoFar(files0["install_requirements.cwl" := Some(InstallScript)], rs, ToolText)["inputs.yml" := Some(dump(YMap(DocsOf(rs).inputs)))]
              ["workflow.cwl" := Some(dump(WorkflowDoc(DocsOf(rs).workflowInputs, YMap(DocsOf(rs).outputs), DocsOf(rs).steps)))]
  {
  }

  /** The files map after the loop of `process` has handled `rs`, the tool
      description of result `i` being `tool(i, rs[i])`. */
  function FilesSoFar(files0: map<string, Option<string>>, rs: seq<Entry>, tool: (nat, Entry) -> string): map<string, Option<string>> {
    SetAll(files0, FilePairs(rs, tool))
  }

  lemma WriteStep(files0: map<string, Option<string>>, rs: seq<Entry>, i: nat, tool: (nat, Entry) -> string)
    requires i < |rs|
    ensures i == 0 ==> DocsOf(rs[..i]) == InitialDocs
    ensures DocsOf(rs[..i + 1]) == AddEntry(DocsOf(rs[..i]), i, rs[i])
    ensures FilesSoFar(files0, rs[..i + 1], tool)
         == FilesSoFar(files0, rs[..i], tool)[ScriptPath(rs[i].blockName) := Some(rs[i].codeString)]
                                             [ToolPath(rs[i].blockName) := Some(tool(i, rs[i]))]
  {
    assert rs[..i + 1][..i] == rs[..i];
    FilePairsStep(files0, rs, i, tool);
  }

  lemma SetAllAppend2<V>(m: map<string, V>, kvs: seq<(string, V)>, a: (string, V), b: (string, V))
    ensures SetAll(m, kvs + [a, b]) == SetAll(m, kvs)[a.0 := a.1][b.0 := b.1]
  {
    assert kvs + [a, b] == (kvs + [a]) + [b];
    SetAllAppend(m, kvs + [a], b);
    SetAllAppend(m, kvs, a);
  }

  lemma FilePairsStep(files1: map<string, Option<string>>, rs: seq<Entry>, i: nat, tool: (nat, Entry) -> string)
    requires i < |rs|
    ensures SetAll(files1, FilePairs(rs[..i + 1], tool))
         == SetAll(files1, FilePairs(rs[..i], tool))[ScriptPath(rs[i].blockName) := Some(rs[i].codeString)]
                                                    [ToolPath(rs[i].blockName) := Some(tool(i, rs[i]))]
  {
    assert rs[..i + 1][..i] == rs[..i];
    SetAllAppend2(files1, FilePairs(rs[..i], tool), (ScriptPath(rs[i].blockName), Some(rs[i].codeString)),
                  (ToolPath(rs[i].blockName), Some(tool(i, rs[i]))));
  }

  // ---------------------------------------------------------------------
  // Properties of the bundle

  lemma ScriptPathInjective(a: string, b: string)
    requires ScriptPath(a) == ScriptPath(b)
    ensures a == b
  {
    assert a == ScriptPath(a)[8..|ScriptPath(a)| - 3];
    assert b == ScriptPath(b)[8..|ScriptPath(b)| - 3];
  }

  lemma ToolPathInjective(a: string, b: string)
    requires ToolPath(a) == ToolPath(b)
    ensures a == b
  {
    assert a == ToolPath(a)[6..|ToolPath(a)| - 4];
    assert b == ToolPath(b)[6..|ToolPath(b)| - 4];
  }

  /** Scripts live under `scripts/`, tool descriptions under `steps/`; neither
      is one of the fixed files. */
  lemma BlockPathsDistinct(a: string, b: string)
    ensures ScriptPath(a) != ToolPath(b)
    ensures ScriptPath(a) !in {"scripts/requirements/", "install_requirements.cwl", "inputs.yml", "workflow.cwl"}
    ensures ToolPath(b) !in {"scripts/requirements/", "install_requirements.cwl", "inputs.yml", "workflow.cwl"}
  {
    assert ScriptPath(a)[1] == 'c' && ToolPath(b)[1] == 't';
    assert ScriptPath(a)[|ScriptPath(a)| - 1] == 'y';
  }

  /** The files after the loop keep the ones set before it, except the
      scripts and tool descriptions of the blocks. */
  lemma {:induction false} FilesSoFarOther(files0: map<string, Option<string>>, rs: seq<Entry>, tool: (nat, Entry) -> string, k: string)
    requires forall j :: 0 <= j < |rs| ==> k != ScriptPath(rs[j].blockName) && k != ToolPath(rs[j].blockName)
    ensures (k in FilesSoFar(files0, rs, tool) <==> k in files0) && (k in files0 ==> FilesSoFar(files0, rs, tool)[k] == files0[k])
    decreases |rs|
  {
    if rs != [] {
      var n := |rs| - 1;
      WriteStep(files0, rs, n, tool);
      assert rs[..n + 1] == rs;
      FilesSoFarOther(files0, rs[..n], tool, k);
    }
  }

  /** The fixed files of the bundle: the empty `scripts/requirements/`
      folder and the install-requirements tool. */
  lemma BundleFixedFiles(rs: seq<Entry>, dump: Yaml -> string)
    ensures var f := FilesOf(InitialFiles, rs, dump);
      && "scripts/requirements/" in f && f["scripts/requirements/"] == None
      && "install_requirements.cwl" in f && f["install_requirements.cwl"] == Some(InstallScript)
  {
    var files1 := InitialFiles["install_requirements.cwl" := Some(InstallScript)];
    FixedNotBlockPath(rs, "scripts/requirements/");
    FixedNotBlockPath(rs, "install_requirements.cwl");
    FilesSoFarOther(files1, rs, ToolText, "scripts/requirements/");
    FilesSoFarOther(files1, rs, ToolText, "install_requirements.cwl");
    var so := FilesSoFar(files1, rs, ToolText);
    var d := DocsOf(rs);
    var a, b := dump(YMap(d.inputs)), dump(WorkflowDoc(d.workflowInputs, YMap(d.outputs), d.steps));
    FilesOfUnfold(InitialFiles, rs, dump);
    KeptByYamlFiles(so, "scripts/requirements/", a, b);
    KeptByYamlFiles(so, "install_requirements.cwl", a, b);
  }

  /** The bundle holds `inputs.yml` and `workflow.cwl`, dumped from the
      documents the loop filled. */
  lemma BundleYamlFiles(files0: map<string, Option<string>>, rs: seq<Entry>, dump: Yaml -> string)
    ensures var f := FilesOf(files0, rs, dump);
      var d := DocsOf(rs);
      && "inputs.yml" in f && f["inputs.yml"] == Some(dump(YMap(d.inputs)))
      && "workflow.cwl" in f && f["workflow.cwl"] == Some(dump(WorkflowDoc(d.workflowInputs, YMap(d.outputs), d.steps)))
  {
    var d := DocsOf(rs);
    FilesOfUnfold(files0, rs, dump);
    YamlFilesSet(FilesSoFar(files0["install_requirements.cwl" := Some(InstallScript)], rs, ToolText),
                 dump(YMap(d.inputs)), dump(WorkflowDoc(d.workflowInputs, YMap(d.outputs), d.steps)));
  }

  lemma YamlFilesSet(f: map<string, Option<string>>, a: string, b: string)
    ensures var g := f["inputs.yml" := Some(a)]["workflow.cwl" := Some(b)];
      "inputs.yml" in g && g["inputs.yml"] == Some(a) && "workflow.cwl" in g && g["workflow.cwl"] == Some(b)
  {
    assert "inputs.yml"[0] != "workflow.cwl"[0];
  }

  lemma FixedNotBlockPath(rs: seq<Entry>, k: string)
    requires k in {"scripts/requirements/", "install_requirements.cwl", "inputs.yml", "workflow.cwl"}
    ensures forall j :: 0 <= j < |rs| ==> k != ScriptPath(rs[j].blockName) && k != ToolPath(rs[j].blockName)
  {
    forall j | 0 <= j < |rs|
      ensures k != ScriptPath(rs[j].blockName) && k != ToolPath(rs[j].blockName)
    {
      BlockPathsDistinct(rs[j].blockName, rs[j].blockName);
    }
  }


  /** Each block has its script and its tool description in the bundle,
      unless a later block of the same name overwrote them. */
  lemma {:induction false} BlockFiles(files0: map<string, Option<string>>, rs: seq<Entry>, tool: (nat, Entry) -> string, i: nat)
    requires i < |rs|
    requires forall j :: i < j < |rs| ==> rs[j].blockName != rs[i].blockName
    ensures var f := FilesSoFar(files0, rs, tool);
      && ScriptPath(rs[i].blockName) in f && f[ScriptPath(rs[i].blockName)] == Some(rs[i].codeString)
      && ToolPath(rs[i].blockName) in f && f[ToolPath(rs[i].blockName)] == Some(tool(i, rs[i]))
    decreases |rs|
  {
    var n := |rs| - 1;
    WriteStep(files0, rs, n, tool);
    assert rs[..n + 1] == rs;
    if i < n {
      BlockFiles(files0, rs[..n], tool, i);
      assert rs[..n][i] == rs[i];
      var a, b := rs[i].blockName, rs[n].blockName;
      BlockPathsDistinct(a, b);
      BlockPathsDistinct(b, a);
      if ScriptPath(a) == ScriptPath(b) { ScriptPathInjective(a, b); }
      if ToolPath(a) == ToolPath(b) { ToolPathInjective(a, b); }
    }
  }

  lemma BundleBlockFiles(rs: seq<Entry>, dump: Yaml -> string, i: nat)
    requires i < |rs|
    requires forall j :: i < j < |rs| ==> rs[j].blockName != rs[i].blockName
    ensures var f := FilesOf(InitialFiles, rs, dump);
      && ScriptPath(rs[i].blockName) in f && f[ScriptPath(rs[i].blockName)] == Some(rs[i].codeString)
      && ToolPath(rs[i].blockName) in f && f[ToolPath(rs[i].blockName)] == Some(ToolText(i, rs[i]))
  {
    var so := FilesSoFar(InitialFiles["install_requirements.cwl" := Some(InstallScript)], rs, ToolText);
    BlockFiles(InitialFiles["install_requirements.cwl" := Some(InstallScript)], rs, ToolText, i);
    BlockPathsDistinct(rs[i].blockName, rs[i].blockName);
    var d := DocsOf(rs);
    KeptByYamlFiles(so, ScriptPath(rs[i].blockName), dump(YMap(d.inputs)), dump(WorkflowDoc(d.workflowInputs, YMap(d.outputs), d.steps)));
    KeptByYamlFiles(so, ToolPath(rs[i].blockName), dump(YMap(d.inputs)), dump(WorkflowDoc(d.workflowInputs, YMap(d.outputs), d.steps)));
  }

  lemma KeptByYamlFiles(f: map<string, Option<string>>, k: string, a: string, b: string)
    requires k in f && k != "inputs.yml" && k != "workflow.cwl"
    ensures var g := f["inputs.yml" := Some(a)]["workflow.cwl" := Some(b)];
      k in g && g[k] == f[k]
  {
  }

  /** `inputs.yml` binds, for every block, its name to its script's file
      name, and the workflow declares a string input per block; every
      block, not only the last, declares a workflow output taken from its
      step's output of the same name. */
  lemma {:induction false} DocsPerBlock(rs: seq<Entry>, i: nat)
    requires i < |rs|
    ensures var d := DocsOf(rs);
      var n := rs[i].blockName;
      && n in d.inputs && d.inputs[n] == Scalar(n + ".py")
      && n in d.workflowInputs && d.workflowInputs[n] == YMap(map["type" := Scalar("string")])
      && n in d.outputs && d.outputs[n] == YMap(map["type" := Scalar("File"), "outputSource" := Scalar(n + "/" + n)])
    decreases |rs|
  {
    var k := |rs| - 1;
    if i < k {
      DocsPerBlock(rs[..k], i);
      assert rs[..k][i] == rs[i];
    }
  }

  /** Without a block named `scripts_folder`, the scripts folder stays a
      `./scripts` directory input, and without one named
      `install_requirements` the install step stays in the workflow. */
  lemma {:induction false} FixedEntriesKept(rs: seq<Entry>)
    ensures var d := DocsOf(rs);
      && ((forall j :: 0 <= j < |rs| ==> rs[j].blockName != "scripts_folder") ==>
            "scripts_folder" in d.inputs && d.inputs["scripts_folder"] == InitialInputs["scripts_folder"]
            && "scripts_folder" in d.workflowInputs && d.workflowInputs["scripts_folder"] == InitialWorkflowInputs["scripts_folder"])
      && ((forall j :: 0 <= j < |rs| ==> rs[j].blockName != "install_requirements") ==>
            "install_requirements" in d.steps && d.steps["install_requirements"] == InitialSteps["install_requirements"])
    decreases |rs|
  {
    if forall j :: 0 <= j < |rs| ==> rs[j].blockName != "scripts_folder" {
      UntouchedKey(rs, "scripts_folder");
    }
    if forall j :: 0 <= j < |rs| ==> rs[j].blockName != "install_requirements" {
      UntouchedKey(rs, "install_requirements");
    }
  }

  /** An entry no block is named after keeps its initial value. */
  lemma {:induction false} UntouchedKey(rs: seq<Entry>, key: string)
    requires forall j :: 0 <= j < |rs| ==> rs[j].blockName != key
    ensures var d := DocsOf(rs);
      && (key in InitialInputs ==> key in d.inputs && d.inputs[key] == InitialInputs[key])
      && (key in InitialWorkflowInputs ==> key in d.workflowInputs && d.workflowInputs[key] == InitialWorkflowInputs[key])
      && (key in InitialSteps ==> key in d.steps && d.steps[key] == InitialSteps[key])
    decreases |rs|
  {
    if rs != [] {
      var k := |rs| - 1;
      assert forall j :: 0 <= j < k ==> rs[..k][j] == rs[j];
      UntouchedKey(rs[..k], key);
      assert rs[k].blockName != key;
    }
  }

  /** The workflow step of a block (unless a later block of the same name
      replaced it) runs `./steps/<name>.cwl`, produces `[<name>]`, and takes
      its own name and the scripts folder; after the first block it also
      takes the previous block's name, bound to the workflow input of that
      name rather than to the previous step's output. */
  lemma {:induction false} StepPerBlock(rs: seq<Entry>, i: nat)
    requires i < |rs|
    requires forall j :: i < j < |rs| ==> rs[j].blockName != rs[i].blockName
    ensures rs[i].blockName in DocsOf(rs).steps && DocsOf(rs).steps[rs[i].blockName] == StepValue(i, rs[i])
    decreases |rs|
  {
    var k := |rs| - 1;
    var d := DocsOf(rs[..k]);
    assert DocsOf(rs).steps == d.steps[rs[k].blockName := StepValue(k, rs[k])];
    if i < k {
      StepPerBlock(rs[..k], i);
      assert rs[..k][i] == rs[i];
    }
  }

  /** What a step says: it runs `./steps/<name>.cwl`, produces `[<name>]`,
      and takes the scripts folder and its own name, plus, after the first
      block, the previous block's name. */
  lemma StepShape(i: nat, r: Entry)
    ensures var n := r.blockName;
      var st := StepValue(i, r);
      && st.YMap? && "run" in st.m && "out" in st.m && "in" in st.m
      && st.m["run"] == Scalar("./steps/" + n + ".cwl")
      && st.m["out"] == YList([Scalar(n)])
      && st.m["in"].YMap?
      && "scripts_directory" in st.m["in"].m && st.m["in"].m["scripts_directory"] == Scalar("scripts_folder")
      && (n != "scripts_directory" ==> n in st.m["in"].m && st.m["in"].m[n] == Scalar(n))
      && (i > 0 && PrevName(r) != "scripts_directory" ==>
            PrevName(r) in st.m["in"].m && st.m["in"].m[PrevName(r)] == Scalar(PrevName(r)))
      && (i == 0 ==> st.m["in"].m.Keys == {n, "scripts_directory"})
  {
  }

  // ---------------------------------------------------------------------
  // The step-tool templates

  /** A literal the placeholders cannot run into: it has no `k` (both
      block-name placeholders have one), not all of `i`, `d` and `:` (so no
      `id:`), and it ends with a character that does not start the rest of a
      placeholder. */
  predicate PlainLit(t: string) {
    && t != [] && t[|t| - 1] !in "prev_block_namid" && 'k' !in t
    && ('i' !in t || 'd' !in t || ':' !in t)
  }

  /** The piece at `k` is a plain literal, or a placeholder followed by a
      literal starting with `:`, a newline or `)`. */
  predicate SeparatedAt(pieces: seq<Piece>, k: nat)
    requires k < |pieces|
  {
    if pieces[k].Lit? then PlainLit(pieces[k].text)
    else k + 1 < |pieces| && pieces[k + 1].Lit? && pieces[k + 1].text != [] && pieces[k + 1].text[0] in ":\n)"
  }

  predicate Separated(pieces: seq<Piece>) {
    forall k :: 0 <= k < |pieces| ==> SeparatedAt(pieces, k)
  }

  /** `pat` does not occur in the literal `t`, and no occurrence can start
      inside `t` and run on past its end. */
  predicate Quiet(t: string, pat: string) {
    |pat| > 0 && t != [] && !Text.Contains(t, pat) && t[|t| - 1] !in pat[..|pat| - 1]
  }

  /** No occurrence of `pat` starts inside the placeholder text `x` and runs
      on into a literal starting with `c`. */
  predicate SlotJoins(x: string, c: char, pat: string) {
    |pat| > 0 && (c !in pat[1..] || (c !in pat[1..|pat| - 1] && !Text.EndsWith(x, pat[..|pat| - 1])))
  }

  /** Replacing a pattern that occurs in no literal and straddles no
      boundary replaces it inside the placeholder texts only. */
  lemma {:induction false} FillReplaced(pieces: seq<Piece>, name: string, prev: string, id: string, pat: string, rep: string)
    requires |pat| > 0 && Separated(pieces)
    requires forall k :: 0 <= k < |pieces| && pieces[k].Lit? ==> Quiet(pieces[k].text, pat)
    requires forall k :: 0 <= k < |pieces| - 1 && !pieces[k].Lit? && pieces[k + 1].Lit? && pieces[k + 1].text != [] ==>
      SlotJoins(PieceText(pieces[k], name, prev, id), pieces[k + 1].text[0], pat)
    ensures Text.ReplaceAll(Fill(pieces, name, prev, id), pat, rep)
      == Fill(pieces, Text.ReplaceAll(name, pat, rep), Text.ReplaceAll(prev, pat, rep), Text.ReplaceAll(id, pat, rep))
    decreases |pieces|
  {
    if pieces != [] {
      var x := PieceText(pieces[0], name, prev, id);
      var rest := pieces[1..];
      var tail := Fill(rest, name, prev, id);
      assert Separated(rest) by {
        forall k | 0 <= k < |rest| ensures SeparatedAt(rest, k) {
          assert SeparatedAt(pieces, k + 1);
        }
      }
      FillReplaced(rest, name, prev, id, pat, rep);
      if pieces[0].Lit? {
        Text.NoStraddleByLast(x, tail, pat);
        Text.ReplaceAllAbsent(x, pat, rep);
      } else {
        assert SeparatedAt(pieces, 0);
        assert tail == pieces[1].text + Fill(rest[1..], name, prev, id);
        Text.NoStraddleByFirst(x, tail, pat);
      }
      Text.ReplaceAllConcat(x, tail, pat, rep);
    }
  }

  /** Plain literals are quiet for the three patterns the source replaces. */
  lemma PlainQuiet(t: string, pat: string)
    requires PlainLit(t) && (pat == "prev_block_name" || pat == "block_name" || pat == "id:")
    ensures Quiet(t, pat)
  {
    if pat == "id:" {
      assert pat[..|pat| - 1] == "id";
      if 'i' !in t {
        Text.AbsentByChar(t, pat, 'i');
      } else if 'd' !in t {
        Text.AbsentByChar(t, pat, 'd');
      } else {
        Text.AbsentByChar(t, pat, ':');
      }
    } else if pat == "block_name" {
      assert pat[4] == 'k';
      Text.AbsentByChar(t, pat, 'k');
      assert pat[..|pat| - 1] == "block_nam";
    } else {
      assert pat[9] == 'k';
      Text.AbsentByChar(t, pat, 'k');
      assert pat[..|pat| - 1] == "prev_block_nam";
    }
  }

  /** A placeholder followed by `:`, a newline or `)` joins no pattern with
      what follows, given that the name does not end with `id` when the
      pattern is `id:`. */
  lemma SeparatorJoins(x: string, c: char, pat: string)
    requires c in ":\n)" && (pat == "prev_block_name" || pat == "block_name" || pat == "id:")
    requires pat == "id:" ==> !Text.EndsWith(x, "id")
    ensures SlotJoins(x, c, pat)
  {
    if pat == "id:" {
      assert pat[1..] == "d:" && pat[1..|pat| - 1] == "d" && pat[..|pat| - 1] == "id";
    } else if pat == "block_name" {
      assert pat[1..] == "lock_name";
    } else {
      assert pat[1..] == "rev_block_name";
    }
  }

  /** One `str.replace` of the chain on a filled template. */
  lemma Stage(pieces: seq<Piece>, name: string, prev: string, id: string, pat: string, rep: string)
    requires Separated(pieces) && (pat == "prev_block_name" || pat == "block_name" || pat == "id:")
    requires pat == "id:" ==> !Text.EndsWith(name, "id") && !Text.EndsWith(prev, "id") && !Text.EndsWith(id, "id")
    ensures Text.ReplaceAll(Fill(pieces, name, prev, id), pat, rep)
      == Fill(pieces, Text.ReplaceAll(name, pat, rep), Text.ReplaceAll(prev, pat, rep), Text.ReplaceAll(id, pat, rep))
  {
    forall k | 0 <= k < |pieces| && pieces[k].Lit? ensures Quiet(pieces[k].text, pat) {
      assert SeparatedAt(pieces, k);
      PlainQuiet(pieces[k].text, pat);
    }
    forall k | 0 <= k < |pieces| - 1 && !pieces[k].Lit? && pieces[k + 1].Lit? && pieces[k + 1].text != []
      ensures SlotJoins(PieceText(pieces[k], name, prev, id), pieces[k + 1].text[0], pat)
    {
      assert SeparatedAt(pieces, k);
      SeparatorJoins(PieceText(pieces[k], name, prev, id), pieces[k + 1].text[0], pat);
    }
    FillReplaced(pieces, name, prev, id, pat, rep);
  }

  lemma SeparatedAppend(a: seq<Piece>, b: seq<Piece>)
    requires Separated(a) && Separated(b)
    ensures Separated(a + b)
  {
    if a != [] {
      assert SeparatedAt(a, |a| - 1);
    }
    forall k | 0 <= k < |a + b| ensures SeparatedAt(a + b, k) {
      if k < |a| {
        assert SeparatedAt(a, k);
        assert (a + b)[k] == a[k];
        if k + 1 < |a| {
          assert (a + b)[k + 1] == a[k + 1];
        }
      } else {
        assert SeparatedAt(b, k - |a|);
        assert (a + b)[k] == b[k - |a|];
        if k + 1 < |a + b| {
          assert (a + b)[k + 1] == b[k + 1 - |a|];
        }
      }
    }
  }

  // The literals of the templates are plain.

  lemma HeaderLits1()
    ensures PlainLit("\n") && PlainLit("        ")
  {
  }

  lemma HeaderLits2()
    ensures PlainLit("        cwlVersion: v1.2\n")
  {
  }

  lemma HeaderLits3()
    ensures PlainLit("        class: ")
  {
  }

  lemma HeaderLits4()
    ensures PlainLit("CommandLineTool\n")
  {
  }

  lemma HeaderLits6()
    ensures PlainLit("        baseCommand: ")
  {
  }

  lemma HeaderLits7()
    ensures PlainLit("[bash, -c]\n")
  {
  }

  lemma HeaderLits5()
    ensures PlainLit("        inputs:\n")
  {
  }

  lemma InputLits1()
    ensures PlainLit("          ") && PlainLit(":\n")
  {
  }

  lemma InputLits2()
    ensures PlainLit("            type: string\n")
  {
  }

  lemma InputLits3()
    ensures PlainLit("            inputBinding")
  {
  }

  lemma InputLits4(position: string)
    requires position == "1" || position == "2" || position == "3"
    ensures PlainLit("              position: " + position + "\n")
  {
  }

  lemma OutputsLits1()
    ensures PlainLit("        outputs:\n") && PlainLit("              \n")
  {
  }

  lemma OutputsLits2()
    ensures PlainLit("            type: File\n")
  {
  }

  lemma OutputsLits3()
    ensures PlainLit("            outputBinding")
  {
  }

  lemma OutputsLits4()
    ensures PlainLit("              glob: ")
  {
  }

  lemma ScriptLits1()
    ensures PlainLit("        arguments:\n")
  {
  }

  lemma ScriptLits2()
    ensures PlainLit("          - valueFrom: |\n")
  {
  }

  lemma ScriptLits3()
    ensures PlainLit("              set -e && ") && PlainLit("              export ")
  {
  }

  lemma ScriptLits4(position: string)
    requires position == "2" || position == "3"
    ensures PlainLit("PYTHONPATH=$" + position)
  {
  }

  lemma ScriptLits8()
    ensures PlainLit(":$PYTHONPATH && ")
  {
  }

  lemma ScriptLits5()
    ensures PlainLit("              python ") && PlainLit("$(inputs.")
  {
  }

  lemma ScriptLits6()
    ensures PlainLit("$(inputs.scripts_" + "directory.path)/")
  {
  }

  lemma ScriptLits7()
    ensures PlainLit(")\n") && PlainLit("        \n")
  {
  }

  lemma EmptyArgumentLits1()
    ensures PlainLit("          - position: 0\n")
  {
  }

  lemma EmptyArgumentLits2()
    ensures PlainLit("            prefix: --\n")
  {
  }

  lemma EmptyArgumentLits3()
    ensures PlainLit("            valueFrom: \"\"\n")
  {
  }

  lemma HeaderSeparated()
    ensures Separated(ToolHeader)
  {
    HeaderLits1();
    HeaderLits2();
    HeaderLits3();
    HeaderLits4();
    HeaderLits5();
    HeaderLits6();
    HeaderLits7();
  }

  lemma StringInputSeparated(name: Piece, position: string)
    requires name.Lit? ==> PlainLit(name.text)
    requires position == "1" || position == "2" || position == "3"
    ensures Separated(StringInput(name, position))
  {
    InputLits1();
    InputLits2();
    InputLits3();
    InputLits4(position);
  }

  lemma OutputsSeparated()
    ensures Separated(ToolOutputs)
  {
    HeaderLits1();
    InputLits1();
    OutputsLits1();
    OutputsLits2();
    OutputsLits3();
    OutputsLits4();
  }

  lemma ScriptArgumentSeparated(position: string)
    requires position == "2" || position == "3"
    ensures Separated(ScriptArgument(position))
  {
    ScriptLits1();
    ScriptLits2();
    ScriptLits3();
    ScriptLits4(position);
    ScriptLits5();
    ScriptLits6();
    ScriptLits7();
    ScriptLits8();
  }

  lemma EmptyArgumentSeparated()
    ensures Separated(EmptyArgument)
  {
    HeaderLits1();
    EmptyArgumentLits1();
    EmptyArgumentLits2();
    EmptyArgumentLits3();
  }

  lemma TailSeparated(position: string)
    requires position == "2" || position == "3"
    ensures Separated(ToolTail(position))
  {
    OutputsSeparated();
    ScriptArgumentSeparated(position);
    EmptyArgumentSeparated();
    SeparatedAppend(ToolOutputs, ScriptArgument(position));
    SeparatedAppend(ToolOutputs + ScriptArgument(position), EmptyArgument);
  }

  lemma SeparatedAppend4(a: seq<Piece>, b: seq<Piece>, c: seq<Piece>, d: seq<Piece>)
    requires Separated(a) && Separated(b) && Separated(c) && Separated(d)
    ensures Separated(a + b + c + d)
  {
    SeparatedAppend(a, b);
    SeparatedAppend(a + b, c);
    SeparatedAppend(a + b + c, d);
  }

  lemma InputsSeparated()
    ensures Separated(StringInput(BlockNameSlot, "1")) && Separated(StringInput(PrevNameSlot, "2"))
    ensures Separated(StringInput(Lit("scripts_directory"), "2")) && Separated(StringInput(Lit("scripts_directory"), "3"))
  {
    assert PlainLit("scripts_directory");
    StringInputSeparated(BlockNameSlot, "1");
    StringInputSeparated(PrevNameSlot, "2");
    StringInputSeparated(Lit("scripts_directory"), "2");
    StringInputSeparated(Lit("scripts_directory"), "3");
  }

  lemma FirstSeparated()
    ensures Separated(FirstStepTemplate)
  {
    HeaderSeparated();
    InputsSeparated();
    TailSeparated("2");
    SeparatedAppend4(ToolHeader, StringInput(BlockNameSlot, "1"), StringInput(Lit("scripts_directory"), "2"), ToolTail("2"));
  }

  lemma StepSeparated()
    ensures Separated(StepTemplate)
  {
    HeaderSeparated();
    InputsSeparated();
    TailSeparated("3");
    SeparatedAppend(ToolHeader, StringInput(BlockNameSlot, "1"));
    SeparatedAppend4(ToolHeader + StringInput(BlockNameSlot, "1"), StringInput(PrevNameSlot, "2"),
      StringInput(Lit("scripts_directory"), "3"), ToolTail("3"));
  }

  /** The first block's template has no previous-name placeholder. */
  lemma FirstLacksPrev()
    ensures PrevNameSlot !in FirstStepTemplate
  {
    assert PrevNameSlot !in ToolHeader;
    assert PrevNameSlot !in StringInput(BlockNameSlot, "1");
    assert PrevNameSlot !in StringInput(Lit("scripts_directory"), "2");
    assert PrevNameSlot !in ToolOutputs;
    assert PrevNameSlot !in ScriptArgument("2");
    assert PrevNameSlot !in EmptyArgument;
  }

  /** A later block's template has one. */
  lemma StepHasPrev()
    ensures PrevNameSlot in StepTemplate
  {
    assert StringInput(PrevNameSlot, "2")[1] == PrevNameSlot;
  }

  /** A name the chain cannot misread: it holds no `id:` and does not end
      with `id` (a placeholder is followed by `:`). */
  predicate NameFits(name: string) {
    !Text.Contains(name, "id:") && !Text.EndsWith(name, "id")
  }

  /** A template without the previous-name placeholder does not depend on
      the previous name. */
  lemma {:induction false} FillIgnoresPrev(pieces: seq<Piece>, name: string, p: string, q: string, id: string)
    requires PrevNameSlot !in pieces
    ensures Fill(pieces, name, p, id) == Fill(pieces, name, q, id)
    decreases |pieces|
  {
    if pieces != [] {
      FillIgnoresPrev(pieces[1..], name, p, q, id);
    }
  }

  /** The first block's chain: `block_name`, then `id:`. */
  lemma FirstChainFills(name: string)
    requires NameFits(name)
    ensures Text.ReplaceAll(Text.ReplaceAll(TemplateText(FirstStepTemplate), "block_name", name), "id:", "id: " + name)
      == Render(FirstStepTemplate, name, "")
  {
    var t := FirstStepTemplate;
    var named := Text.ReplaceAll(TemplateText(t), "block_name", name);
    FirstSeparated();
    assert named == Fill(t, name, "", "id:") by {
      Stage(t, "block_name", "prev_block_name", "id:", "block_name", name);
      Text.ReplaceAllSelf("block_name", name);
      assert Text.ReplaceAll("id:", "block_name", name) == "id:";
      FirstLacksPrev();
      FillIgnoresPrev(t, name, Text.ReplaceAll("prev_block_name", "block_name", name), "", "id:");
    }
    assert !Text.EndsWith("", "id") && !Text.EndsWith("id:", "id");
    Stage(t, name, "", "id:", "id:", "id: " + name);
    Text.ReplaceAllAbsent(name, "id:", "id: " + name);
    Text.ReplaceAllSelf("id:", "id: " + name);
  }

  /** A later block's chain: `prev_block_name`, then `block_name`, then
      `id:`. */
  lemma StepChainFills(name: string, prev: string)
    requires NameFits(name) && NameFits(prev) && !Text.Contains(prev, "block_name")
    ensures Text.ReplaceAll(Text.ReplaceAll(Text.ReplaceAll(TemplateText(StepTemplate), "prev_block_name", prev), "block_name", name), "id:", "id: " + name)
      == Render(StepTemplate, name, prev)
  {
    var t := StepTemplate;
    var s1 := Text.ReplaceAll(TemplateText(t), "prev_block_name", prev);
    var s2 := Text.ReplaceAll(s1, "block_name", name);
    StepSeparated();
    assert s1 == Fill(t, "block_name", prev, "id:") by {
      Stage(t, "block_name", "prev_block_name", "id:", "prev_block_name", prev);
      assert Text.ReplaceAll("block_name", "prev_block_name", prev) == "block_name";
      Text.ReplaceAllSelf("prev_block_name", prev);
      assert Text.ReplaceAll("id:", "prev_block_name", prev) == "id:";
    }
    assert s2 == Fill(t, name, prev, "id:") by {
      Stage(t, "block_name", prev, "id:", "block_name", name);
      Text.ReplaceAllSelf("block_name", name);
      Text.ReplaceAllAbsent(prev, "block_name", name);
      assert Text.ReplaceAll("id:", "block_name", name) == "id:";
    }
    assert !Text.EndsWith("id:", "id");
    Stage(t, name, prev, "id:", "id:", "id: " + name);
    Text.ReplaceAllAbsent(name, "id:", "id: " + name);
    Text.ReplaceAllAbsent(prev, "id:", "id: " + name);
    Text.ReplaceAllSelf("id:", "id: " + name);
  }

  /** The source's chain of replacements fills every placeholder exactly
      once when the names fit: the block's name in the output, the glob and
      the script path, the previous name as the second input, and the
      block's name after `id:`. */
  lemma ToolTextFills(i: nat, r: Entry)
    requires NameFits(r.blockName)
    requires i > 0 ==> NameFits(PrevName(r)) && !Text.Contains(PrevName(r), "block_name")
    ensures i == 0 ==> ToolText(i, r) == Render(FirstStepTemplate, r.blockName, "")
    ensures i > 0 ==> ToolText(i, r) == Render(StepTemplate, r.blockName, PrevName(r))
  {
    if i == 0 {
      FirstChainFills(r.blockName);
    } else {
      StepChainFills(r.blockName, PrevName(r));
    }
  }

  /** A template with the previous-name placeholder mentions the previous
      name. */
  lemma {:induction false} FillShowsPrev(pieces: seq<Piece>, name: string, prev: string, id: string)
    requires PrevNameSlot in pieces
    ensures Text.Contains(Fill(pieces, name, prev, id), prev)
    decreases |pieces|
  {
    var rest := Fill(pieces[1..], name, prev, id);
    if pieces[0] == PrevNameSlot {
      Text.ContainsPrefix(prev, rest);
    } else {
      FillShowsPrev(pieces[1..], name, prev, id);
      Text.ContainsRight(PieceText(pieces[0], name, prev, id), rest, prev);
    }
  }

  /** Every later block's tool declares the previous block's name as an
      input, when the names fit. */
  lemma ToolTextPrev(i: nat, r: Entry)
    requires i > 0 && NameFits(r.blockName) && NameFits(PrevName(r)) && !Text.Contains(PrevName(r), "block_name")
    ensures Text.Contains(ToolText(i, r), PrevName(r))
  {
    ToolTextFills(i, r);
    StepHasPrev();
    FillShowsPrev(StepTemplate, r.blockName, PrevName(r), "id: " + r.blockName);
  }


  /** Why `prev_block_name` is substituted before `block_name`: the previous
      name survives the second replacement as long as it does not itself
      contain `block_name`. */
  lemma PrevSubstitutedFirst(name: string, prev: string)
    requires !Text.Contains(prev, "block_name")
    ensures Text.ReplaceAll(Text.ReplaceAll("prev_block_name", "prev_block_name", prev), "block_name", name) == prev
  {
    var t := "prev_block_name";
    assert t[..|t|] == t && t[|t|..] == [];
    assert Text.ReplaceAll(t[|t|..], t, prev) == [];
    assert Text.ReplaceAll(t, t, prev) == prev + Text.ReplaceAll(t[|t|..], t, prev);
    assert Text.ReplaceAll(t, t, prev) == prev;
    Text.ReplaceAllAbsent(prev, "block_name", name);
  }

  /** A previous name that contains `block_name` is mangled by the second
      replacement: `load_block_name` after block `b` becomes `load_b`. */
  lemma PrevNameMangled()
    ensures Text.ReplaceAll(Text.ReplaceAll("prev_block_name", "prev_block_name", "load_block_name"), "block_name", "b")
      == "load_b"
  {
    var a, t := "load_", "block_name";
    assert Text.ReplaceAll("prev_block_name", "prev_block_name", a + t) == a + t by {
      Text.ReplaceAllSelf("prev_block_name", a + t);
    }
    assert Text.ReplaceAll(a + t, t, "b") == a + "b" by {
      Text.NoStraddleByFirst(a, t, t);
      Text.ReplaceAllConcat(a, t, t, "b");
      Text.AbsentByChar(a, t, 'k');
      Text.ReplaceAllAbsent(a, t, "b");
      Text.ReplaceAllSelf(t, "b");
    }
    assert a + t == "load_block_name" && a + "b" == "load_b";
  }

  // ---------------------------------------------------------------------
  // The workflow outputs, as written

  /** Python's `container[key] = value` on a YAML value: only a mapping
      accepts a string key; a list raises `TypeError`. */
  function IndexAssign(container: Yaml, key: string, value: Yaml): (r: Result<Yaml, string>)
    ensures r.Success? <==> container.YMap?
    ensures r.Success? ==> r.value.YMap? && r.value.m == container.m[key := value]
  {
    match container
    case YMap(m) => Success(YMap(m[key := value]))
    case _ => Failure("TypeError")
  }

  /** `outputs: []` in `_workflow` loads as an empty list. */
  const OutputsAsLoaded: Yaml := YList([])

  /** The `outputs` section as mage_to_cwl.py:159 and 181-184 build it: an
      assignment by block name into the loaded value. */
  function OutputsAsWritten(rs: seq<Entry>, start: Yaml): Result<Yaml, string>
    decreases |rs|
  {
    if rs == [] then Success(start)
    else match OutputsAsWritten(rs[..|rs| - 1], start)
      case Failure(e) => Failure(e)
      case Success(o) => IndexAssign(o, rs[|rs| - 1].blockName, OutputValue(rs[|rs| - 1].blockName))
  }

  /** As written, the first block's output assignment fails on the list, so
      `process` raises for every pipeline that has a block. */
  lemma {:induction false} OutputsAsWrittenFail(rs: seq<Entry>)
    requires |rs| > 0
    ensures OutputsAsWritten(rs, OutputsAsLoaded) == Failure("TypeError")
    decreases |rs|
  {
    if |rs| > 1 {
      OutputsAsWrittenFail(rs[..|rs| - 1]);
    }
  }

  /** Started from a mapping, the same assignments give the outputs the model
      uses. */
  lemma {:induction false} OutputsFromMapping(rs: seq<Entry>)
    ensures OutputsAsWritten(rs, YMap(map[])) == Success(YMap(DocsOf(rs).outputs))
    decreases |rs|
  {
    if rs != [] {
      OutputsFromMapping(rs[..|rs| - 1]);
    }
  }
}
