/** The command-line surface: the operations, the build configurations, the
    option group shared by the `build`, `test` and `run` subcommands, and the
    operation each subcommand fixes. */
module Commands {
  import opened Base

  /** `BuildOperation`: the verb handed to `swift` in the build stage. */
  datatype Operation = Build | Test | Edit | Run

  /** `BuildConfiguration`. */
  datatype Configuration = Debug | Release

  /** The raw value of an operation, which is also the text it renders as. */
  function OperationName(op: Operation): string
  {
    match op
    case Build => "build"
    case Test => "test"
    case Edit => "edit"
    case Run => "run"
  }

  /** `BuildOperation(rawValue:)`, the parser `ExpressibleByArgument` uses. */
  function ParseOperation(s: string): Option<Operation>
  {
    if s == "build" then Some(Build)
    else if s == "test" then Some(Test)
    else if s == "edit" then Some(Edit)
    else if s == "run" then Some(Run)
    else None
  }

  function ConfigurationName(c: Configuration): string
  {
    match c
    case Debug => "debug"
    case Release => "release"
  }

  /** `BuildConfiguration(rawValue:)`. */
  function ParseConfiguration(s: string): Option<Configuration>
  {
    if s == "debug" then Some(Debug)
    else if s == "release" then Some(Release)
    else None
  }

  /** Parsing accepts exactly the four raw values, and parsing and printing are
      inverse to each other. */
  lemma OperationRawValues(s: string, op: Operation)
    ensures ParseOperation(OperationName(op)) == Some(op)
    ensures ParseOperation(s) == Some(op) ==> OperationName(op) == s
    ensures ParseOperation(s).Some? <==> s in {"build", "test", "edit", "run"}
  {
    match op
    case Build =>
    case Test => assert "test"[0] != "build"[0];
    case Edit => assert "edit"[0] != "build"[0] && "edit"[0] != "test"[0];
    case Run => assert "run"[0] != "build"[0] && "run"[0] != "test"[0] && "run"[0] != "edit"[0];
  }

  lemma ConfigurationRawValues(s: string, c: Configuration)
    ensures ParseConfiguration(ConfigurationName(c)) == Some(c)
    ensures ParseConfiguration(s) == Some(c) ==> ConfigurationName(c) == s
    ensures ParseConfiguration(s).Some? <==> s in {"debug", "release"}
  {
    match c
    case Debug =>
    case Release => assert "release"[0] != "debug"[0];
  }

  /** `SwiftDockerCommand.BuildOptions`. */
  datatype BuildOptions = BuildOptions(
    image: string,
    output: bool,
    tag: Option<string>,
    noSlim: bool,
    configuration: Option<Configuration>,
    product: Option<string>,
    target: Option<string>,
    env: seq<string>,
    swiftOptions: seq<string>)

  /** The option group as parsed from a command line that sets nothing. */
  function DefaultBuildOptions(): (o: BuildOptions)
    ensures o.image == "swift:5.5"
    ensures !o.output && !o.noSlim
    ensures o.tag.None? && o.configuration.None? && o.product.None? && o.target.None?
    ensures o.env == [] && o.swiftOptions == []
  {
    BuildOptions("swift:5.5", false, None, false, None, None, None, [], [])
  }

  /** The subcommands that go through the build pipeline. `edit` does not
      carry the option group and never reaches it. */
  datatype Subcommand =
    | BuildCommand(options: BuildOptions)
    | TestCommand(options: BuildOptions)
    | RunCommand(options: BuildOptions, publish: seq<string>, removeOnExit: bool)

  /** `run` as parsed when neither `--publish` nor `--rm` is given. */
  function DefaultRunCommand(options: BuildOptions): (c: Subcommand)
    ensures c.RunCommand? && c.options == options
    ensures c.publish == [] && !c.removeOnExit
  {
    RunCommand(options, [], false)
  }

  /** The operation a subcommand fixes: each one its own, named like the
      subcommand, and never `edit`. */
  function OperationOf(c: Subcommand): (op: Operation)
    ensures op != Edit
    ensures op == Build <==> c.BuildCommand?
    ensures op == Test <==> c.TestCommand?
    ensures op == Run <==> c.RunCommand?
  {
    match c
    case BuildCommand(_) => Build
    case TestCommand(_) => Test
    case RunCommand(_, _, _) => Run
  }
}
