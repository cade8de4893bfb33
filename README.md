# MageAPI core, modelled in Dafny

This project models the core of MageAPI. MageAPI is a web service in front of a Mage data-pipeline platform. Its main piece is the Mage-to-CWL exporter. The exporter takes the blocks of a pipeline and rewrites each block's Python source into a standalone script that reads its input file and writes its output file. It then assembles a Common Workflow Language (CWL v1.2) bundle:
- one script and one command-line tool per block;
- an `inputs.yml`;
- a `workflow.cwl` that chains the steps.

The project also models the smaller algorithms of the service's routers and utilities:
- the block order used by the pipeline export, the run-history summary and the template filter;
- the extraction of one block's log window;
- the de-duplication of block telemetry;
- the recursive path search of the file-delete endpoint;
- the code linter's import and dangling-`if` passes;
- the case-combination generator of a batch block;
- the per-session conversation memory.

Modules, one per source file:

| module | models |
|---|---|
| `Wrappers` | `Option` and `Result` |
| `Text` | the Python string operations the core uses: `in`, `replace`, `strip`, `split`/`join` on one character, ASCII `upper`/`lower` |
| `PyAst` | the part of Python's syntax tree the block normaliser inspects |
| `CodePatterns` | `replace_code_patterns` (three `re.sub` passes) |
| `MageToPythonUtils` | `MageToPythonTransformer` and `remove_imports_with_word` |
| `MageToPythonBlock` | `MageToPython` (rewrite, normalise, format) |
| `MageToCwl` | `MageToCWL` (convert all blocks, build the bundle) |
| `PipelinesGet` | export order and archive, run history, template filter |
| `LogsGet` | `block_logs` |
| `FilesGet` | the telemetry de-duplication of the files router |
| `FilesDelete` | `delete_file`'s path search and requests |
| `Linter` | the `Linter` class |
| `RemoveNullColumns` | `generate_case_combinations` |
| `Memory` | the `Memory` class |

Where the source changes state step by step, the model is imperative. Classes hold the fields the source updates, and methods carry loops with invariants. Each method is proved equal to a specification function, and the properties are lemmas about that function. External tools are function-typed parameters: the Python parser and unparser, autopep8, black, autoimport, the YAML dumper, the JSON decoder and date parsing. A parameter returning `None` (or `Failure`) stands for a tool that raises.

## Model

| member | source | states |
|---|---|---|
| Text.Contains | mage_to_cwl/mage_to_python_utils.py:23 | `p in s` holds exactly when `p` occurs at some index of `s` |
| Text.ReplaceAllAbsent | routers/pipelines/pipelines_get.py:407 | `str.replace` leaves a string without the pattern unchanged |
| Text.ReplaceAllSelf | mage_to_cwl/mage_to_cwl.py:198 | a placeholder replaced in itself gives the replacement |
| Text.ReplaceAllConcat | mage_to_cwl/mage_to_cwl.py:197-200 | `str.replace` on a concatenation replaces in each part, when no occurrence straddles the join |
| Text.ReplaceCharIsMapChar | routers/files/files_delete.py:54 | replacing a one-character pattern is the same as replacing that character everywhere |
| Text.MapCharRemoves | routers/files/files_delete.py:54 | after replacing a character by text without it, the character no longer occurs |
| Text.JoinSplit | utils/linter.py:53-70 | joining the pieces of `split(sep)` with `sep` gives back the string |
| Text.SplitPiecesFree | utils/linter.py:53 | no piece of a split contains the separator |
| Text.SplitJoin | utils/linter.py:53-70 | splitting a join of separator-free pieces gives back the pieces |
| CodePatterns.SubSkip | mage_to_cwl/mage_to_python_utils.py:185 | `re.sub` copies text where the pattern matches nowhere and collects nothing there |
| CodePatterns.SubHit | mage_to_cwl/mage_to_python_utils.py:185 | a match at the front is replaced and its callback's names come first |
| CodePatterns.NoMatchUnchanged | mage_to_cwl/mage_to_python_utils.py:185 | text the pattern never matches is returned unchanged with no names |
| CodePatterns.CloseParen | mage_to_cwl/mage_to_python_utils.py:177 | finds the first `)` at or after a position, or reports there is none |
| CodePatterns.KwargsAt | mage_to_cwl/mage_to_python_utils.py:177-183 | a match of `kwargs\.get\(([^)]+)\)` is a lookup `kwargs.get(arg)` with a non-empty argument free of `)`, replaced by `os.getenv('ARG')` and collecting `ARG` (the converse is `KwargsLookupRewritten`) |
| CodePatterns.KwargsLookupRewritten | mage_to_cwl/mage_to_python_utils.py:177-185 | `kwargs.get(arg)` becomes `os.getenv('ARG')` with quotes stripped and upper case, and `ARG` is collected first |
| CodePatterns.EmptyLookupIgnored | mage_to_cwl/mage_to_python_utils.py:177 | `kwargs.get()` is not a match |
| CodePatterns.LookupAfterText | mage_to_cwl/mage_to_python_utils.py:177-185 | text before a lookup adds no name; the lookup's name is collected first |
| CodePatterns.StrategyName | mage_to_cwl/mage_to_python_utils.py:180-181 | the argument `"strategy"` gives the variable `STRATEGY` |
| CodePatterns.LastLookup | mage_to_cwl/mage_to_python_utils.py:177-185 | one lookup between lookup-free text collects exactly its own name |
| CodePatterns.TwoLookupsInOrder | mage_to_cwl/mage_to_python_utils.py:177-185 | two lookups are collected in order, duplicates kept |
| CodePatterns.StrategyCollectedTwice | mage_to_cwl/mage_to_python_utils.py:179-185 | two reads of `"strategy"` collect `STRATEGY` twice |
| CodePatterns.SkipSpace | mage_to_cwl/mage_to_python_utils.py:187 | `\s*`: the first non-whitespace index at or after a position |
| CodePatterns.SecretAt | mage_to_cwl/mage_to_python_utils.py:187-189 | a match is non-empty, is replaced by nothing and collects nothing |
| CodePatterns.SecretAtOnlyStatement | mage_to_cwl/mage_to_python_utils.py:187-189 | whatever the secret-name pattern matches is a `secret_name = "password-" + os.getenv('PIPELINE_NAME')` statement (any whitespace around `=`, any non-newline character for the unescaped `.`) followed by all the whitespace after it |
| CodePatterns.AssignedValueEnd | mage_to_cwl/mage_to_python_utils.py:187 | a match of `target\s*=\s*head.tail\s*` ends after the target and within the text |
| CodePatterns.AssignedAtShape | mage_to_cwl/mage_to_python_utils.py:187 | a match of `target\s*=\s*` is exactly the target, whitespace, `=` and all the whitespace after it |
| CodePatterns.AssignedValueEndShape | mage_to_cwl/mage_to_python_utils.py:187 | a match of `target\s*=\s*head.tail\s*` is exactly that text, with one non-newline character for `.` and all the trailing whitespace |
| CodePatterns.AssignedValueMatches | mage_to_cwl/mage_to_python_utils.py:187 | the pattern matches an assignment with any whitespace around `=`, any character but a newline for `.`, and all the whitespace after it |
| CodePatterns.SecretMatches | mage_to_cwl/mage_to_python_utils.py:187 | the secret-name pattern matches `secret_name = "password-" + os.getenv('PIPELINE_NAME')` and the whitespace after it |
| CodePatterns.SecretStatementDeleted | mage_to_cwl/mage_to_python_utils.py:187-189 | that statement and its trailing whitespace are deleted, and the scan resumes after them |
| CodePatterns.PipelineNameCollectedThoughDeleted | mage_to_cwl/mage_to_python_utils.py:175-199 | `secret_name = "password-" + kwargs.get('PIPELINE_NAME')` is first rewritten, collecting `PIPELINE_NAME`, then deleted: the code loses the read but the names keep it |
| CodePatterns.PasswordAt | mage_to_cwl/mage_to_python_utils.py:191-197 | a match is non-empty, becomes `password = os.getenv("PASSWORD")` and collects `PASSWORD` |
| CodePatterns.PasswordAtOnlyStatement | mage_to_cwl/mage_to_python_utils.py:191-197 | whatever the password pattern matches is a `password = get_secret_value(secret_name)` statement with some whitespace around `=` |
| CodePatterns.PasswordMatches | mage_to_cwl/mage_to_python_utils.py:191 | the password pattern matches `password = get_secret_value(secret_name)` with any whitespace around `=` |
| CodePatterns.PasswordStatementRewritten | mage_to_cwl/mage_to_python_utils.py:191-197 | that statement becomes the read of `PASSWORD`, and `PASSWORD` is the next name collected |
| CodePatterns.SecretCollectsNothing | mage_to_cwl/mage_to_python_utils.py:187-189 | the secret-name pass adds no variable |
| CodePatterns.PasswordCollectsOnlyPassword | mage_to_cwl/mage_to_python_utils.py:191-197 | the password pass adds only `PASSWORD`, once per rewrite |
| CodePatterns.RewriteCodeVars | mage_to_cwl/mage_to_python_utils.py:175-199 | the collected names are the lookup names in order, then only `PASSWORD`s |
| CodePatterns.ReplaceCodePatterns | mage_to_cwl/mage_to_python_utils.py:175-199 | the three substitutions in order, with the names collected as `RewriteCodeVars` says |
| MageToPythonUtils.KeepAliases | mage_to_cwl/mage_to_python_utils.py:23 | the kept aliases are never more than the original ones |
| MageToPythonUtils.KeepAliasesMembers | mage_to_cwl/mage_to_python_utils.py:23 | an alias is kept exactly when its name does not contain the word |
| MageToPythonUtils.ImportFlags | mage_to_cwl/mage_to_python_utils.py:26-32 | a kept `os`, `argparse`, `pandas` or `as pd` alias clears the matching flag; nothing else changes |
| MageToPythonUtils.WalkImport | mage_to_cwl/mage_to_python_utils.py:22-33 | an import is deleted exactly when every alias contains the word; a kept import keeps the other aliases |
| MageToPythonUtils.WalkImportFrom | mage_to_cwl/mage_to_python_utils.py:35-44 | a `from` import is deleted exactly when its module contains the word; otherwise it is kept and clears the flags of its module |
| MageToPythonUtils.DropEmptyImports | mage_to_cwl/mage_to_python_utils.py:50 | the filter removes exactly the imports left without names |
| MageToPythonUtils.FindMain | mage_to_cwl/mage_to_python_utils.py:140-146 | the index of the first `if __name__ == '__main__'`, or none |
| MageToPythonUtils.InsertAt | mage_to_cwl/mage_to_python_utils.py:163-169 | `list.insert(i, x)`: at `i` within the list, appended past its end |
| MageToPythonUtils.SpliceMainBlock | mage_to_cwl/mage_to_python_utils.py:140-161 | the first `__main__` block gets the argument code, its old body and the collected statements; otherwise a new one is appended |
| MageToPythonUtils.AssembleImports | mage_to_cwl/mage_to_python_utils.py:163-169 | `import os` goes at 0 and `import pandas as pd` at 1 exactly when still needed |
| MageToPythonUtils.ExpandReturnsNoReturn | mage_to_cwl/mage_to_python_utils.py:75-102 | no top-level `return` is left in a role function's body |
| MageToPythonUtils.ExpandReturnsLength | mage_to_cwl/mage_to_python_utils.py:101-102 | each `return` becomes two statements; nothing else is added or lost |
| MageToPythonUtils.CollapseExpand | mage_to_cwl/mage_to_python_utils.py:75-102 | the splice can be undone: everything but the replaced returns is preserved |
| MageToPythonUtils.ReturnEffectsEnvVars | mage_to_cwl/mage_to_python_utils.py:87-88 | one `<BLOCK_NAME>_OUTPUT_FILE` is appended per replaced `return` |
| MageToPythonUtils.ReturnEffectsFrame | mage_to_cwl/mage_to_python_utils.py:76-104 | replacing returns changes only the output type, the names and the pandas flag; the flag is set exactly when a `DataFrame` attribute is returned |
| MageToPythonUtils.ReturnEffectsNoReturnOutput | mage_to_cwl/mage_to_python_utils.py:76-86 | a body without returns leaves the output type alone |
| MageToPythonUtils.LastReturnWins | mage_to_cwl/mage_to_python_utils.py:78-86 | the last `return` decides the output type, unless it calls a method other than `to_csv`/`dump` |
| MageToPythonUtils.FunctionDefExtends | mage_to_cwl/mage_to_python_utils.py:66-130 | visiting a function only appends to the collected, argument and name lists |
| MageToPythonUtils.WalkStmtExtends | mage_to_cwl/mage_to_python_utils.py:46-130 | any visit only appends to those lists and collects no top-level `return` |
| MageToPythonUtils.WalkStmtsExtends | mage_to_cwl/mage_to_python_utils.py:137 | the same for a whole walk |
| MageToPythonUtils.FunctionDefCases | mage_to_cwl/mage_to_python_utils.py:66-130 | `@test` deletes the function; a role decorator deletes it and collects its body with returns replaced; any other function is kept unvisited |
| MageToPythonUtils.IfCases | mage_to_cwl/mage_to_python_utils.py:46-53 | an `if` is deleted exactly when its visited body is empty once empty imports are dropped; a kept one has that filtered, non-empty body |
| MageToPythonUtils.NormaliseEnvVars | mage_to_cwl/mage_to_python_utils.py:87-88 | every name the normaliser reports is `<BLOCK_NAME>_OUTPUT_FILE` |
| MageToPythonUtils.MageToPythonTransformer.constructor | mage_to_cwl/mage_to_python_utils.py:7-20 | the initial field values |
| MageToPythonUtils.MageToPythonTransformer.VisitImport | mage_to_cwl/mage_to_python_utils.py:22-33 | updates the fields and returns the statement exactly as `WalkImport` says |
| MageToPythonUtils.MageToPythonTransformer.VisitImportFrom | mage_to_cwl/mage_to_python_utils.py:35-44 | as `WalkImportFrom` says |
| MageToPythonUtils.MageToPythonTransformer.ReplaceReturns | mage_to_cwl/mage_to_python_utils.py:75-104 | the in-place splice loop yields `ExpandReturns` and the fields `ReturnEffects` |
| MageToPythonUtils.MageToPythonTransformer.VisitFunctionDef | mage_to_cwl/mage_to_python_utils.py:66-130 | as `WalkFunctionDef` says |
| MageToPythonUtils.MageToPythonTransformer.VisitIf | mage_to_cwl/mage_to_python_utils.py:46-53 | as `WalkIf` says |
| MageToPythonUtils.MageToPythonTransformer.Visit | mage_to_cwl/mage_to_python_utils.py:22-130 | dispatches to the visitor of the statement's kind |
| MageToPythonUtils.MageToPythonTransformer.VisitList | mage_to_cwl/mage_to_python_utils.py:137 | replaces each statement by what its visit returns, in order |
| MageToPythonUtils.RemoveImportsWithWord | mage_to_cwl/mage_to_python_utils.py:133-172 | a syntax error fails; otherwise the unparsed `Normalise` result with its names and output type |
| MageToPythonBlock.ConvertedEnvVars | mage_to_cwl/mage_to_python.py:61-64 | the names are the lookup names, then `PASSWORD`s, then `<BLOCK_NAME>_OUTPUT_FILE`s |
| MageToPythonBlock.ConvertedPipeline | mage_to_cwl/mage_to_python.py:66-69 | rewrite, normalise, autopep8, black, in that order; for each of the four outcomes of the formatters, the code is the output of the last one that did not raise, or the unparsed tree |
| MageToPythonBlock.MageToPython.constructor | mage_to_cwl/mage_to_python.py:10-19 | the initial field values |
| MageToPythonBlock.MageToPython.FormatCodeAutopep8 | mage_to_cwl/mage_to_python.py:21-39 | the formatted code replaces the code unless the formatter raises |
| MageToPythonBlock.MageToPython.FormatCodeBlack | mage_to_cwl/mage_to_python.py:41-59 | the same for black |
| MageToPythonBlock.MageToPython.RemoveMageImports | mage_to_cwl/mage_to_python.py:61-64 | the rewrite's names come first, the normaliser's after; on a syntax error the rewrite is already stored |
| MageToPythonBlock.MageToPython.Convert | mage_to_cwl/mage_to_python.py:66-69 | succeeds exactly when the rewritten text parses, and then holds `Converted`'s code, names and output type |
| MageToCwl.ConstructionError | mage_to_cwl/mage_to_cwl.py:9-11 | an empty list fails with `IndexError`; a first block with upstream blocks fails with `ValueError` |
| MageToCwl.Transformed | mage_to_cwl/mage_to_cwl.py:16-25 | a successful conversion has one entry per block |
| MageToCwl.TransformedPrefix | mage_to_cwl/mage_to_cwl.py:16-25 | converting a prefix of the blocks gives the prefix of the entries |
| MageToCwl.TransformedEntry | mage_to_cwl/mage_to_cwl.py:16-25 | entry i is block i converted, given the entries before it |
| MageToCwl.TransformedChain | mage_to_cwl/mage_to_cwl.py:17-25 | entry i is named after block i, names block i-1 as previous, and takes block i-1's output type as input type (`pandas` for the first) |
| MageToCwl.TransformedFailure | mage_to_cwl/mage_to_cwl.py:16-25 | the first block that fails to convert aborts with its error |
| MageToCwl.MageToCWL.constructor | mage_to_cwl/mage_to_cwl.py:9-14 | a valid block list; no results; files holding only `scripts/requirements/` |
| MageToCwl.MageToCWL.TransformMageToPython | mage_to_cwl/mage_to_cwl.py:16-25 | appends exactly `Transformed`'s entries |
| MageToCwl.MageToCWL.Process | mage_to_cwl/mage_to_cwl.py:170-214 | succeeds exactly when every block converts; the files become `FilesOf` the entries; a failure leaves the files alone |
| MageToCwl.TransformBlocks | mage_to_cwl/mage_to_cwl.py:17-25 | the conversion loop computes `Transformed` |
| MageToCwl.ConvertBlock | mage_to_cwl/mage_to_cwl.py:18-25 | one iteration computes `NextEntry` |
| MageToCwl.FillDocuments | mage_to_cwl/mage_to_cwl.py:175-211 | the loop fills the documents and files as `DocsOf`/`FilesSoFar` say |
| MageToCwl.BuildFiles | mage_to_cwl/mage_to_cwl.py:174-214 | the install tool, the per-block loop and the two dumps give `FilesOf` the entries |
| MageToCwl.BlockPathsDistinct | mage_to_cwl/mage_to_cwl.py:174-214 | scripts, tool descriptions and the fixed files never share a path |
| MageToCwl.ScriptPathInjective | mage_to_cwl/mage_to_cwl.py:176 | different blocks get different script paths |
| MageToCwl.ToolPathInjective | mage_to_cwl/mage_to_cwl.py:211 | different blocks get different tool paths |
| MageToCwl.FilesSoFarOther | mage_to_cwl/mage_to_cwl.py:175-211 | the loop changes no file other than the blocks' scripts and tools |
| MageToCwl.BundleFixedFiles | mage_to_cwl/mage_to_cwl.py:174-214 | the bundle holds the empty requirements folder and the install tool, whatever the blocks are called |
| MageToCwl.BundleYamlFiles | mage_to_cwl/mage_to_cwl.py:213-214 | the bundle holds `inputs.yml` and `workflow.cwl`, dumped from the filled documents |
| MageToCwl.BlockFiles | mage_to_cwl/mage_to_cwl.py:176-211 | each block's script and tool are in the files, unless a later block of the same name overwrote them |
| MageToCwl.BundleBlockFiles | mage_to_cwl/mage_to_cwl.py:170-214 | the same for the finished bundle |
| MageToCwl.DocsPerBlock | mage_to_cwl/mage_to_cwl.py:177-184 | every block binds its script name in `inputs.yml`, declares a string input and a `File` output from its step |
| MageToCwl.FixedEntriesKept | mage_to_cwl/mage_to_cwl.py:150-178 | the `scripts_folder` input and the install step stay unless a block takes their name |
| MageToCwl.StepPerBlock | mage_to_cwl/mage_to_cwl.py:185-209 | each block's workflow step is its `StepValue`, unless a later block of the same name replaced it |
| MageToCwl.StepShape | mage_to_cwl/mage_to_cwl.py:188-209 | a step runs `./steps/<name>.cwl`, outputs `[<name>]`, takes its name and the scripts folder, and after the first block the previous name |
| MageToCwl.FillReplaced | mage_to_cwl/mage_to_cwl.py:197-200 | replacing a pattern that occurs in no literal of a template and straddles no boundary replaces it in the placeholder texts only |
| MageToCwl.Stage | mage_to_cwl/mage_to_cwl.py:197-200 | one `replace` of `prev_block_name`, `block_name` or `id:` on a filled template acts on the placeholder texts only |
| MageToCwl.FirstChainFills | mage_to_cwl/mage_to_cwl.py:186-187 | the first block's two replacements fill the template with its name, and `id: <name>` |
| MageToCwl.StepChainFills | mage_to_cwl/mage_to_cwl.py:197-200 | a later block's three replacements fill the template with its name, the previous name, and `id: <name>` |
| MageToCwl.ToolTextFills | mage_to_cwl/mage_to_cwl.py:185-200 | the tool text is the template with every placeholder filled once, when the names fit |
| MageToCwl.FillIgnoresPrev | mage_to_cwl/mage_to_cwl.py:186-187 | a template without the previous-name placeholder does not depend on the previous name |
| MageToCwl.FillShowsPrev | mage_to_cwl/mage_to_cwl.py:197-200 | a template with the previous-name placeholder mentions the previous name |
| MageToCwl.ToolTextPrev | mage_to_cwl/mage_to_cwl.py:196-200 | a later block's tool declares the previous block's name, when the names fit |
| MageToCwl.PrevSubstitutedFirst | mage_to_cwl/mage_to_cwl.py:198-199 | substituting `prev_block_name` before `block_name` keeps the previous name, unless it contains `block_name` |
| MageToCwl.PrevNameMangled | mage_to_cwl/mage_to_cwl.py:198-199 | a previous name containing `block_name` is mangled: `load_block_name` before block `b` becomes `load_b` |
| MageToCwl.IndexAssign | mage_to_cwl/mage_to_cwl.py:181 | `container[key] = value` succeeds exactly on a mapping and updates that key |
| MageToCwl.OutputsAsWrittenFail | mage_to_cwl/mage_to_cwl.py:159-184 | with the outputs loaded as a list, the first block's assignment raises `TypeError` |
| MageToCwl.OutputsFromMapping | mage_to_cwl/mage_to_cwl.py:181-184 | starting from a mapping, the assignments give one output per block |
| PipelinesGet.OfRankMembers | routers/pipelines/pipelines_get.py:431 | the blocks of one key are exactly the listed blocks with that key |
| PipelinesGet.SortedByKeyIsSorted | routers/pipelines/pipelines_get.py:431 | the sort is ordered by `(no upstream, has downstream)` and is a permutation |
| PipelinesGet.SortedByKeyDescIsSorted | routers/pipelines/pipelines_get.py:431 | the descending sort is ordered the other way and is a permutation |
| PipelinesGet.SortsAreStable | routers/pipelines/pipelines_get.py:431 | blocks sharing a key keep their relative order |
| PipelinesGet.FirstDownstream | routers/pipelines/pipelines_get.py:437 | `next(...)`: the first block listing the uuid upstream, or none |
| PipelinesGet.Chain | routers/pipelines/pipelines_get.py:435-441 | the chain only grows |
| PipelinesGet.ChainShape | routers/pipelines/pipelines_get.py:435-441 | the chain is linked block to block and stays within the list; it stops only at full length or at a block with nothing downstream |
| PipelinesGet.FollowChain | routers/pipelines/pipelines_get.py:433-441 | the while loop computes `Chain` from the first block |
| PipelinesGet.Remaining | routers/pipelines/pipelines_get.py:443 | exactly the blocks not in the chain |
| PipelinesGet.Reverse | routers/pipelines/pipelines_get.py:446 | index i holds the element at index len-1-i |
| PipelinesGet.OrderAsWrittenCovers | routers/pipelines/pipelines_get.py:430-446 | the export order holds exactly the pipeline's blocks and ends with the first sorted block |
| PipelinesGet.LinearPipelineOrder | routers/pipelines/pipelines_get.py:430-446 | the corrected order lists a linear pipeline in pipeline order, whatever order the blocks came in |
| PipelinesGet.AsWrittenMisordersChain | routers/pipelines/pipelines_get.py:430-446 | for a four-block chain A→B→C→D the order as written is A, C, B, D, and A does not feed C |
| PipelinesGet.CorrectedStartsAtSource | routers/pipelines/pipelines_get.py:431-433 | the corrected order starts at a block without upstream blocks exactly when one exists |
| PipelinesGet.WriteArchive | routers/pipelines/pipelines_get.py:452-457 | each bundle file is written with its content, a folder as empty text |
| PipelinesGet.ExportPipeline | routers/pipelines/pipelines_get.py:430-457 | fails on an empty list, on a first block with upstream blocks, or on a conversion error; otherwise the archive of the bundle |
| PipelinesGet.FirstFailed | routers/pipelines/pipelines_get.py:327-331 | the index of the first failed block run, or none |
| PipelinesGet.FailedIndexIsFirst | routers/pipelines/pipelines_get.py:327-331 | the same property for the function the summary uses |
| PipelinesGet.SummaryMeaning | routers/pipelines/pipelines_get.py:333-350 | exactly when an entry fails (bad date, no block runs, missing error); on success it copies the status, variables and reformatted date, and a run without failures names its last block run |
| PipelinesGet.SummaryOfFailure | routers/pipelines/pipelines_get.py:343-350 | a failed run names the failed block run, its error and the block run before it, or the last one when the first failed |
| PipelinesGet.PipelineHistory | routers/pipelines/pipelines_get.py:324-354 | one summary per run in order, or the error of a failing run |
| PipelinesGet.SummariesAll | routers/pipelines/pipelines_get.py:326-352 | if every run summarises, the answer is those summaries |
| PipelinesGet.SummariesFailure | routers/pipelines/pipelines_get.py:326-352 | the first failing run decides the error |
| PipelinesGet.RunEnd | routers/pipelines/pipelines_get.py:402 | the end of a run of `[\w\s_-]` characters |
| PipelinesGet.FindTag | routers/pipelines/pipelines_get.py:402-403 | the search finds a `(tag) ` exactly when one exists |
| PipelinesGet.FindTagIsHasTag | routers/pipelines/pipelines_get.py:402-403 | the search from the start answers exactly whether the description holds a `(tag) ` |
| PipelinesGet.FilterTemplates | routers/pipelines/pipelines_get.py:400-408 | the loop computes `OfferedTemplates` |
| PipelinesGet.OfferedTemplatesMembers | routers/pipelines/pipelines_get.py:403-408 | an entry is listed exactly when its template names the type or has no tag |
| PipelinesGet.OwnTagOffered | routers/pipelines/pipelines_get.py:403 | a template tagged with the requested type is offered |
| PipelinesGet.UntaggedDescriptionKept | routers/pipelines/pipelines_get.py:407 | a description without the requested tag is kept unchanged |
| LogsGet.LogsOfBlock | routers/logs/logs_get.py:83 | exactly the logs named `<block>.log` |
| LogsGet.Latest | routers/logs/logs_get.py:91-92 | the first log with the largest timestamp |
| LogsGet.Parsed | routers/logs/logs_get.py:94-99 | never more records than lines |
| LogsGet.ParsedMembers | routers/logs/logs_get.py:94-99 | a record is kept exactly when some line decodes to it after its first 20 characters |
| LogsGet.ParseContent | routers/logs/logs_get.py:94-99 | the parse loop computes `Parsed` on the split content |
| LogsGet.Window | routers/logs/logs_get.py:101-116 | the loop with the `start` flag computes `Collect`, missing keys included |
| LogsGet.StartIndex | routers/logs/logs_get.py:104-108 | the first start message, or none |
| LogsGet.StopIndex | routers/logs/logs_get.py:109-110 | the first separator message, or the length |
| LogsGet.CollectStarted | routers/logs/logs_get.py:109-116 | once started, the records up to the first separator |
| LogsGet.CollectWaiting | routers/logs/logs_get.py:104-108 | before the start message nothing is collected |
| LogsGet.WindowByPositions | routers/logs/logs_get.py:101-116 | the result is the records strictly between the first start message and the next separator, or empty without a start message |
| LogsGet.BlockLogs | routers/logs/logs_get.py:83-116 | no matching log fails with the source's message; otherwise the window of the first matching log with the largest timestamp |
| FilesGet.FailedKeys | routers/files/files_get.py:140 | never more keys than given |
| FilesGet.NormalKeys | routers/files/files_get.py:141 | never more keys than given |
| FilesGet.FailedKeysMembers | routers/files/files_get.py:140 | the failed bases are the keys containing `failed_` with 7 characters dropped |
| FilesGet.NormalKeysMembers | routers/files/files_get.py:141 | the normal keys are exactly those without `failed_` |
| FilesGet.DeleteOlder | routers/files/files_get.py:145-152 | one clash deletes the older entry, or the `failed_` one on a tie |
| FilesGet.MatchRow | routers/files/files_get.py:143-152 | the inner loop computes one row of `Steps` |
| FilesGet.Deduplicate | routers/files/files_get.py:139-152 | the nested loop computes `Steps` over all pairs |
| FilesGet.DeduplicateResult | routers/files/files_get.py:139-152 | for a well-formed table: success; an entry survives exactly when it is not beaten; values are unchanged |
| FilesGet.NoBlockTwice | routers/files/files_get.py:142-152 | afterwards no block has both its normal and its `failed_` entry |
| FilesGet.TieKeepsNormal | routers/files/files_get.py:149-152 | on equal dates the normal entry stays and the `failed_` entry goes |
| FilesGet.StepsPairs | routers/files/files_get.py:142-152 | the loop deletes exactly one loser per clashing base |
| FilesGet.LoserIffBeaten | routers/files/files_get.py:149-152 | the deleted entries are exactly the beaten ones |
| FilesDelete.FindAllPathsIsPreorder | routers/files/files_delete.py:40-49 | the search reports the matching nodes in pre-order: a node before its subtree, siblings in order, recursion into every non-empty folder |
| FilesDelete.FoundPathsShape | routers/files/files_delete.py:43-46 | every path lies under the start path and ends with `/` plus the target |
| FilesDelete.ListingPaths | routers/files/files_delete.py:43-48 | each node's path is its parent's path, `/`, and its name |
| FilesDelete.Encode | routers/files/files_delete.py:54 | no `/` is left after encoding |
| FilesDelete.DeleteFile | routers/files/files_delete.py:25-60 | a type other than files or folders is refused; otherwise one request per found path in order, stopping with an error at the first refused one |
| Linter.DanglingFlags | utils/linter.py:59-62 | flags exactly the `if` headers followed by a blank line or by nothing |
| Linter.KeptFrom | utils/linter.py:57-68 | the kept indices are strictly increasing and within the lines |
| Linter.CleanIsSubsequence | utils/linter.py:53-70 | the output lines are the input lines at those indices: a subsequence in order |
| Linter.DroppedLines | utils/linter.py:57-66 | every dropped line is a dangling `if` header or the blank line right after one |
| Linter.KeptNotDangling | utils/linter.py:62-68 | no kept line is a dangling header |
| Linter.NoneFlaggedKeepsAll | utils/linter.py:57-68 | with no line flagged as dangling every line is kept |
| Linter.CleanedLines | utils/linter.py:53-70 | the cleaned code is the code's lines at the kept, strictly increasing indices, joined with newlines |
| Linter.CleanedUnchanged | utils/linter.py:53-70 | code without dangling headers comes back unchanged |
| Linter.Linter.constructor | utils/linter.py:11-12 | stores the alias map |
| Linter.Linter.FindMissingImports | utils/linter.py:14-23 | exactly `import <module> as <alias>` for each identifier of the code that is a known alias |
| Linter.Linter.RemoveDanglingIfs | utils/linter.py:52-70 | the `skip_next` loop computes `Cleaned` |
| Linter.Linter.Process | utils/linter.py:72-81 | the missing imports, each once, then a blank line and the code; then autoimport, black, and the dangling-`if` removal |
| RemoveNullColumns.Prefixed | block_models/batch/remove_null_columns.py:17-21 | for each spelling of the rest, the upper-case variant immediately precedes the lower-case one |
| RemoveNullColumns.CaseCombinationsCount | block_models/batch/remove_null_columns.py:9-21 | `2^len(word)` entries; the empty word gives one |
| RemoveNullColumns.CaseCombinationsSound | block_models/batch/remove_null_columns.py:9-21 | every entry has the word's length, with each character in the upper or lower form of the word's |
| RemoveNullColumns.CaseCombinationsComplete | block_models/batch/remove_null_columns.py:9-21 | every such spelling is an entry |
| RemoveNullColumns.FirstAllUpper | block_models/batch/remove_null_columns.py:19-21 | the first entry is the word in upper case |
| RemoveNullColumns.LastAllLower | block_models/batch/remove_null_columns.py:19-21 | the last entry is the word in lower case |
| Memory.FirstMatch | rag/memory.py:13-16 | the earliest interaction asking the query, or none exactly when none asks it |
| Memory.ContextAppend | rag/memory.py:18-22 | storing an interaction extends the context by its entry |
| Memory.FirstMatchAppend | rag/memory.py:9-16 | a new interaction is found only when no earlier one asks the same question |
| Memory.Memory.constructor | rag/memory.py:6-7 | no sessions |
| Memory.Memory.StoreInteraction | rag/memory.py:9-10 | appends to that session only |
| Memory.Memory.RetrieveInteraction | rag/memory.py:12-16 | the loop returns `FirstMatch` of the session; an unknown session has none |
| Memory.Memory.SessionContext | rag/memory.py:18-22 | the `Question: q\nAnswer: a\n` entries in order; `""` for an unknown session |
| Memory.Memory.ClearSession | rag/memory.py:24-25 | empties that session only; afterwards nothing is found and the context is empty |

## Left out

- The HTTP layer is not modelled: tokens, request and response handling, status codes and the Redis cache. Each endpoint model starts from the JSON the platform returned, with the decoded fields as values. A failed request is not modelled, except the per-path DELETE answers of `delete_file`, which are the `deleted` parameter.
- Python's parser, `ast.unparse`, autopep8, black, autoimport, `yaml.safe_dump` and `json.loads` are parameters. Temporary files are not modelled.
- The syntax tree keeps only the statements the normaliser inspects. `for`, `while`, `try`, `with` and `class` are opaque leaves, so a role function nested inside them is not found. The injected write-output and argument-reading code is a tagged statement, not its text.
- The cross-file calls whose arities do not match are modelled as intended. Affected: `MageToCWL(blocks, pipeline_name)`, `MageToPython(...)` and `replace_code_patterns(..., repo_name=...)`. The module comments of `MageToPythonBlock` and `MageToCwl` describe the wiring.
- `str.upper`, `str.lower`, `str.strip`, `\w` and `\s` act on ASCII only.
- Date parsing and formatting (`strptime`, `strftime`) are parameters. Dates are integers.
- The zip file is a map from path to text. Compression and the order of archive entries are not modelled.
- The pipeline logs endpoint (`routers/logs/logs_get.py:20-60`) computes float averages and is not modelled. So is the reading of telemetry JSON, including float rounding (`routers/files/files_get.py:111-137`). The de-duplication starts from the collected table. `keys` gives the table's iteration order.
- FilesGet.DeduplicateResult: the table is assumed well formed (`WellFormed`). Outside it, the source raises `KeyError` on a key like `xfailed_y`, or on an unparsable date. `Steps` models those failures, but the per-key statement does not cover them.
- FilesDelete.DeleteFile: the node's `children` list is a plain sequence. A missing list and an empty list are the same, as the source only tests the list's truth value. The fetch of the tree and `files[0]` are outside the model.
- Linter.Linter.Process: the identifiers of the code are given as the names `ast.walk` yields. `ast.parse` raising on bad code is not modelled. The import lines follow the set's iteration order, which the contract leaves open.
- Memory.Memory.RetrieveInteraction: reading an unknown session through `defaultdict` inserts an empty list for it. The model's reads change nothing, so `memory` can lack a key the source holds as `[]`. `Session` reads both the same way.
- Memory.Memory.SessionContext: the same `defaultdict` insertion as above is not modelled.
- PipelinesGet.SummaryMeaning: a block run's `metrics` is a map of text maps. Metrics of other shapes are not modelled. `variables` is passed through as text.
- MageToPythonUtils.MageToPythonTransformer.ReplaceReturns: a `return` always carries a value in the syntax tree. A bare `return` in a role function makes `ast.unparse(None)` raise `AttributeError` (`mage_to_cwl/mage_to_python_utils.py:93`), and that failure is not modelled.
- MageToCwl.ToolTextFills: holds only for names that fit (`NameFits`): no `id:` in a name and no name ending in `id`, and for later blocks a previous name without `block_name`. For other names the chain of replacements is modelled as written (`ToolText`), but what it produces is not described; `PrevNameMangled` shows one such case.
- MageToCwl.ToolTextPrev: the same name conditions as `ToolTextFills`.
- The `transform` function of `remove_null_columns.py` (pandas) is not modelled, and neither are the other block templates.

## Findings

| source | as written | input that shows it | evidently intended | confidence | as-written member | corrected member |
|---|---|---|---|---|---|---|
| mage_to_cwl/mage_to_cwl.py:159-184 | the workflow `outputs` is loaded as the YAML list `[]`, then assigned to by block name | any pipeline with at least one block: `workflow["outputs"]["<uuid>"] = {...}` on a list raises `TypeError` | `outputs` is a mapping from block name to its `File` output | high (not executed) | MageToCwl.OutputsAsWrittenFail | MageToCwl.OutputsFromMapping |
| routers/pipelines/pipelines_get.py:430-446 | ascending sort by `(no upstream, has downstream)`, chain from the first sorted block, append the rest, reverse | the linear pipeline A→B→C→D, listed in that order, is exported as A, C, B, D, so step C is given A as its previous name although B feeds it | blocks listed in pipeline order, starting from the block without upstream blocks | high (not executed) | PipelinesGet.AsWrittenMisordersChain | PipelinesGet.LinearPipelineOrder |

`PipelinesGet.ExportPipeline` and the rest of the model use the corrected order (`PipelinesGet.OrderCorrected`): a descending stable sort, then the chain from its first block, then the blocks the chain missed, with no reversal. The outputs are a mapping throughout `MageToCwl`.
