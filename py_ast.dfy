/** The part of Python's abstract syntax tree that the block normaliser
    looks at. Statements the normaliser never inspects are `Other`; the code
    it injects is represented by tagged statements, not by their text. */
module PyAst {
  import opened Wrappers

  /** `name` or `name as asname` in an import. */
  datatype Alias = Alias(name: string, asname: Option<string>)

  /** A decorator: a bare name such as `@transformer`, or anything else
      (an attribute or a call), which the normaliser ignores. */
  datatype Decorator = NameDecorator(id: string) | OtherDecorator

  /** What the output classification can tell about a returned expression:
      a dictionary display, a call of a method `x.attr(...)`, an attribute
      `x.attr`, or anything else. */
  datatype Expr = DictLit | AttrCall(attr: string) | Attribute(attr: string) | OtherExpr

  /** The three output kinds: `'pandas'` (tabular), `'dict'`, `'str'`. */
  datatype OutputType = Pandas | Dict | Str

  datatype Stmt =
    | Import(names: seq<Alias>)
    | ImportFrom(fromModule: Option<string>, names: seq<Alias>)
      /** `isMain`: the test compares `__name__` with the constant `'__main__'`. */
    | If(isMain: bool, body: seq<Stmt>, orelse: seq<Stmt>)
    | FunctionDef(name: string, decorators: seq<Decorator>, params: seq<string>, body: seq<Stmt>)
    | Return(value: Expr)
      /** An expression statement holding a string constant. */
    | Docstring
      /** Any other statement, with its source text. */
    | Other(code: string)
      /** Injected: `output_file = os.getenv("<fileVar>")`. */
    | OutputFileRead(fileVar: string)
      /** Injected: `if output_file:` writing `value` as CSV, JSON or text. */
    | WriteOutput(value: Expr)
      /** Injected: the argparse statements that read the input file named on
          the command line into `param`, according to `inputType`. */
    | ReadInput(param: string, inputType: string)

  /** `import os`, as the normaliser inserts it. */
  const OsImport: Stmt := Import([Alias("os", None)])

  /** `import pandas as pd`, written by the source as one alias whose name is
      the text `pandas as pd`. */
  const PandasImport: Stmt := Import([Alias("pandas as pd", None)])
}
