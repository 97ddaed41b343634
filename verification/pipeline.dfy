/** `runBuild` flattened into one sequential function: the effects it has on
    the outside world, in order, and how it stops. The file system, the
    manifest loader and the `docker build` exit code are parameters. */
module Pipeline {
  import opened Base
  import opened Errors
  import opened Commands
  import opened Resolver
  import opened Tags
  import opened Contexts
  import opened Template
  import opened DockerArgs

  /** The build folder and the ignore file created ahead of every build. */
  const BuildFolder := ".build"
  const DockerIgnorePath := ".dockerignore"
  const DockerIgnoreContents := ".build\n.git"

  /** One observable step, in the order the tool takes them. */
  datatype Effect =
    | EnsureFolder(path: string)
    /** The file exists afterwards; `contents` is what is written when it
        was missing, an existing file is left as it is. */
    | EnsureFile(path: string, contents: string)
    | WriteFile(path: string, lines: seq<Line>)
    | Exec(argv: seq<string>)

  /** How a run stops early: an error thrown out of `runBuild`, or one caught
      inside the manifest callback and only printed. */
  datatype Abort = Raised(error: SwiftDockerError) | Printed(message: string)

  datatype Outcome = Outcome(effects: seq<Effect>, abort: Option<Abort>)

  /** What the package loader hands to the callback. */
  datatype ManifestLoad = Loaded(manifest: Manifest) | LoadFailed(message: string)

  /** Everything `runBuild` learns from outside the tool. */
  datatype Environment = Environment(
    cwd: string,
    buildFolderFails: bool,
    dockerIgnoreFails: bool,
    dockerfileWriteFails: bool,
    load: ManifestLoad,
    buildExitCode: int)

  /** The post-build closure: `run` starts the image only when a tag is
      known; `build` and `test` pass none. */
  function PostBuild(c: Subcommand, tag: Option<string>): (effects: seq<Effect>)
    ensures |effects| <= 1
    ensures effects != [] <==> c.RunCommand? && tag.Some?
    ensures effects != [] ==>
              effects[0].Exec? && ParseRunArgs(effects[0].argv)
                                  == Some(RunRequest(c.publish, c.options.env, c.removeOnExit, tag.value))
  {
    if c.RunCommand? && tag.Some? then
      RunArgsRoundTrip(RunRequest(c.publish, c.options.env, c.removeOnExit, tag.value));
      [Exec(RunArgs(RunRequest(c.publish, c.options.env, c.removeOnExit, tag.value)))]
    else []
  }

  /** `buildDocker(tag:)`, then the post-build step when it exited with
      status 0: commands only, `docker build` first. */
  function BuildAndRun(c: Subcommand, tag: Option<string>, exitCode: int): (effects: seq<Effect>)
    ensures 1 <= |effects| <= 2 && effects[0] == Exec(BuildArgs(tag))
    ensures forall i :: 0 <= i < |effects| ==> effects[i].Exec?
    ensures |effects| == 2 <==> exitCode == 0 && c.RunCommand? && tag.Some?
    ensures |effects| == 2 ==> [effects[1]] == PostBuild(c, tag)
  {
    [Exec(BuildArgs(tag))] + (if exitCode == 0 then PostBuild(c, tag) else [])
  }

  /** The body of the manifest callback: resolve, check, render and write,
      pick the tag, build, then the post-build step. Every error is caught
      and printed. */
  function Callback(c: Subcommand, env: Environment): (out: Outcome)
    ensures |out.effects| <= 3
    ensures out.abort.Some? ==> out.abort.value.Printed? && |out.effects| <= 1
  {
    match env.load
    case LoadFailed(message) => Outcome([], Some(Printed(message)))
    case Loaded(m) =>
      var o := c.options;
      var op := OperationOf(c);
      var exe := Resolve(m, o.product, o.target, op);
      var filename := DockerfilePath(o.output);
      if op == Run && exe.None? then Outcome([], Some(Printed(Description(RunRequiresAnExecutable))))
      else if env.dockerfileWriteFails then Outcome([], Some(Printed(Description(FailedToCreateFile(filename)))))
      else
        var written := WriteFile(filename, Render(MakeContext(o, op, exe)));
        match SelectTag(o.tag, exe, env.cwd)
        case Failure(e) => Outcome([written], Some(Printed(Description(e))))
        case Success(tag) =>
          if o.output then Outcome([written], None)
          else Outcome([written] + BuildAndRun(c, tag, env.buildExitCode), None)
  }

  /** Whatever the callback does starts with writing the Dockerfile to the
      path `--output` selects; everything after that write is a command. */
  lemma CallbackWritesThenExecutes(c: Subcommand, env: Environment)
    ensures var effects := Callback(c, env).effects;
            (|effects| > 0 ==> effects[0].WriteFile? && effects[0].path == DockerfilePath(c.options.output))
            && forall i :: 1 <= i < |effects| ==> effects[i].Exec?
  {
    var effects := Callback(c, env).effects;
    if |effects| > 1 {
      var m := env.load.manifest;
      var o := c.options;
      var exe := ResolvedExecutable(c, m);
      var sel := SelectTag(o.tag, exe, env.cwd);
      var w := WriteFile(DockerfilePath(o.output), Render(MakeContext(o, OperationOf(c), exe)));
      var rest := BuildAndRun(c, sel.value, env.buildExitCode);
      assert effects == [w] + rest;
      assert forall i :: 1 <= i < |effects| ==> effects[i] == rest[i - 1];
    }
  }


  /** `runBuild` for one subcommand: the build folder, the ignore file, then
      the manifest callback. Only the first two steps can throw. */
  function RunBuildOutcome(c: Subcommand, env: Environment): (out: Outcome)
    ensures |out.effects| <= 5
    ensures (out.abort.Some? && out.abort.value.Raised?) <==> !Setup(env)
    ensures Setup(env) ==> |out.effects| >= 2 && out.effects[..2] == [EnsureFolder(".build"), EnsureFile(".dockerignore", ".build\n.git")]
  {
    if env.buildFolderFails then Outcome([], Some(Raised(FailedToCreateFolder(BuildFolder))))
    else if env.dockerIgnoreFails then Outcome([EnsureFolder(BuildFolder)], Some(Raised(FailedToCreateFile(DockerIgnorePath))))
    else
      var inner := Callback(c, env);
      Outcome([EnsureFolder(BuildFolder), EnsureFile(DockerIgnorePath, DockerIgnoreContents)] + inner.effects, inner.abort)
  }

  /** The effects the callback has, counted from after the ignore file. */
  function CallbackEffects(c: Subcommand, env: Environment): seq<Effect>
  {
    Callback(c, env).effects
  }

  predicate Setup(env: Environment)
  {
    !env.buildFolderFails && !env.dockerIgnoreFails
  }

  /** The executable the callback resolves once the manifest is loaded. */
  function ResolvedExecutable(c: Subcommand, m: Manifest): Option<string>
  {
    Resolve(m, c.options.product, c.options.target, OperationOf(c))
  }

  predicate HasExec(effects: seq<Effect>)
  {
    exists i :: 0 <= i < |effects| && effects[i].Exec?
  }

  predicate HasWrite(effects: seq<Effect>)
  {
    exists i :: 0 <= i < |effects| && effects[i].WriteFile?
  }

  /** Only the build folder and the ignore file make `runBuild` throw; every
      later error is printed and `runBuild` returns normally. */
  lemma OnlySetupErrorsPropagate(c: Subcommand, env: Environment)
    ensures var out := RunBuildOutcome(c, env);
            (out.abort.Some? && out.abort.value.Raised?) <==> !Setup(env)
    ensures env.buildFolderFails ==> RunBuildOutcome(c, env) == Outcome([], Some(Raised(FailedToCreateFolder(".build"))))
    ensures !env.buildFolderFails && env.dockerIgnoreFails ==>
              RunBuildOutcome(c, env) == Outcome([EnsureFolder(".build")], Some(Raised(FailedToCreateFile(".dockerignore"))))
  {
  }

  /** Every run that gets past the set-up starts by ensuring the build
      folder and the ignore file, the latter created holding `.build` and
      `.git` when it is absent. */
  lemma SetupComesFirst(c: Subcommand, env: Environment)
    requires Setup(env)
    ensures var out := RunBuildOutcome(c, env);
            |out.effects| >= 2 && out.effects[0] == EnsureFolder(".build")
            && out.effects[1] == EnsureFile(".dockerignore", ".build\n.git")
            && out.effects[2..] == CallbackEffects(c, env)
  {
  }

  /** A failed manifest load prints the loader's message; nothing is
      written or run. */
  lemma LoadFailurePrinted(c: Subcommand, env: Environment)
    requires env.load.LoadFailed?
    ensures Callback(c, env) == Outcome([], Some(Printed(env.load.message)))
  {
  }

  /** A failed Dockerfile write prints `failedToCreateFile` with the path it
      was writing; nothing is written or run. */
  lemma WriteFailurePrinted(c: Subcommand, env: Environment, m: Manifest)
    requires env.load == Loaded(m) && !(c.RunCommand? && ResolvedExecutable(c, m).None?)
    requires env.dockerfileWriteFails
    ensures Callback(c, env)
         == Outcome([], Some(Printed(Description(FailedToCreateFile(DockerfilePath(c.options.output))))))
  {
  }

  /** `run` without an executable stops before anything is written or run,
      printing the error's message. */
  lemma RunWithoutExecutable(c: Subcommand, env: Environment, m: Manifest)
    requires Setup(env) && env.load == Loaded(m)
    requires c.RunCommand? && ResolvedExecutable(c, m).None?
    ensures RunBuildOutcome(c, env).abort == Some(Printed("swift docker run requires an executable."))
    ensures !HasWrite(RunBuildOutcome(c, env).effects) && !HasExec(RunBuildOutcome(c, env).effects)
  {
    var out := RunBuildOutcome(c, env);
    assert out.effects == [EnsureFolder(BuildFolder), EnsureFile(DockerIgnorePath, DockerIgnoreContents)];
  }

  /** A tag given with `--tag` that breaks the rule is reported only after
      the Dockerfile has been written, and docker is never invoked. */
  lemma InvalidUserTagAfterWrite(c: Subcommand, env: Environment, m: Manifest)
    requires Setup(env) && env.load == Loaded(m) && !env.dockerfileWriteFails
    requires !(c.RunCommand? && ResolvedExecutable(c, m).None?)
    requires c.options.tag.Some? && !IsValidUserTag(c.options.tag.value)
    ensures RunBuildOutcome(c, env).abort == Some(Printed("Illegal Docker tag name."))
    ensures HasWrite(RunBuildOutcome(c, env).effects) && !HasExec(RunBuildOutcome(c, env).effects)
  {
    var out := RunBuildOutcome(c, env);
    var o := c.options;
    var filename := DockerfilePath(o.output);
    var written := WriteFile(filename, Render(MakeContext(o, OperationOf(c), ResolvedExecutable(c, m))));
    assert out.effects == [EnsureFolder(BuildFolder), EnsureFile(DockerIgnorePath, DockerIgnoreContents), written];
    assert out.effects[2].WriteFile?;
  }

  /** With `--output` the Dockerfile goes to the project root and docker is
      never invoked. */
  lemma OutputNeverRunsDocker(c: Subcommand, env: Environment)
    requires c.options.output
    ensures !HasExec(RunBuildOutcome(c, env).effects)
    ensures forall i :: 0 <= i < |RunBuildOutcome(c, env).effects| && RunBuildOutcome(c, env).effects[i].WriteFile? ==>
              RunBuildOutcome(c, env).effects[i].path == "Dockerfile"
  {
    var out := RunBuildOutcome(c, env);
    if Setup(env) && env.load.Loaded? {
      var m := env.load.manifest;
      var cb := Callback(c, env);
      assert cb.effects == [] || cb.effects == [WriteFile("Dockerfile", Render(MakeContext(c.options, OperationOf(c), ResolvedExecutable(c, m))))];
      assert out.effects == [EnsureFolder(BuildFolder), EnsureFile(DockerIgnorePath, DockerIgnoreContents)] + cb.effects;
    }
  }

  /** The commands run, in order: nothing, `docker build` alone, or
      `docker build` then `docker run`. `docker build` runs exactly when the
      Dockerfile was written to the build folder and the tag was accepted;
      `docker run` follows exactly for `run`, with a tag, after a build that
      exited with status 0. The Dockerfile is written before either runs and
      `docker build` reads it from where it was written. */
  lemma DockerInvocations(c: Subcommand, env: Environment, m: Manifest)
    requires Setup(env) && env.load == Loaded(m) && !env.dockerfileWriteFails
    requires !(c.RunCommand? && ResolvedExecutable(c, m).None?)
    requires !c.options.output
    requires SelectTag(c.options.tag, ResolvedExecutable(c, m), env.cwd).Success?
    ensures var out := RunBuildOutcome(c, env);
            var tag := SelectTag(c.options.tag, ResolvedExecutable(c, m), env.cwd).value;
            out.abort.None?
            && out.effects[2] == WriteFile(".build/Dockerfile", Render(MakeContext(c.options, OperationOf(c), ResolvedExecutable(c, m))))
            && out.effects[3] == Exec(BuildArgs(tag))
            && BuildArgs(tag)[3] == out.effects[2].path
            && (|out.effects| == 5 <==> c.RunCommand? && env.buildExitCode == 0 && tag.Some?)
            && (|out.effects| == 5 ==>
                  ParseRunArgs(out.effects[4].argv) == Some(RunRequest(c.publish, c.options.env, c.removeOnExit, tag.value)))
            && (|out.effects| == 4 || |out.effects| == 5)
  {
    var o := c.options;
    var exe := ResolvedExecutable(c, m);
    var tag := SelectTag(o.tag, exe, env.cwd).value;
    var written := WriteFile(".build/Dockerfile", Render(MakeContext(o, OperationOf(c), exe)));
    var setup := [EnsureFolder(BuildFolder), EnsureFile(DockerIgnorePath, DockerIgnoreContents)];
    var rest := BuildAndRun(c, tag, env.buildExitCode);
    assert Callback(c, env).effects == [written] + rest;
    assert RunBuildOutcome(c, env).effects == setup + ([written] + rest);
  }

  /** For `run`, an image is started after a successful build unless no tag
      could be found: no `--tag` and a working directory made of slashes
      only. */
  lemma RunStartsUnlessNoTag(c: Subcommand, env: Environment, m: Manifest)
    requires Setup(env) && env.load == Loaded(m) && !env.dockerfileWriteFails
    requires c.RunCommand? && ResolvedExecutable(c, m).Some? && !c.options.output && env.buildExitCode == 0
    requires c.options.tag.None?
    ensures |RunBuildOutcome(c, env).effects| == 5 <==> exists i :: 0 <= i < |env.cwd| && env.cwd[i] != '/'
  {
    DockerInvocations(c, env, m);
  }

  /** The converse of `DockerInvocations`: docker is invoked only when the
      set-up succeeded, the manifest loaded, `run` found an executable, the
      Dockerfile was written to the build folder and the tag was accepted. */
  lemma DockerRunsOnlyAfterWriteAndTag(c: Subcommand, env: Environment)
    ensures HasExec(RunBuildOutcome(c, env).effects) ==>
              Setup(env) && env.load.Loaded? && !env.dockerfileWriteFails && !c.options.output
              && !(c.RunCommand? && ResolvedExecutable(c, env.load.manifest).None?)
              && SelectTag(c.options.tag, ResolvedExecutable(c, env.load.manifest), env.cwd).Success?
  {
    var out := RunBuildOutcome(c, env);
    if Setup(env) && env.load.Loaded? {
      var m := env.load.manifest;
      var exe := ResolvedExecutable(c, m);
      var setup := [EnsureFolder(BuildFolder), EnsureFile(DockerIgnorePath, DockerIgnoreContents)];
      var written := [WriteFile(DockerfilePath(c.options.output), Render(MakeContext(c.options, OperationOf(c), exe)))];
      if (c.RunCommand? && exe.None?) || env.dockerfileWriteFails {
        assert out.effects == setup;
      } else if c.options.output || SelectTag(c.options.tag, exe, env.cwd).Failure? {
        assert out.effects == setup + written;
      }
    } else {
      assert out.effects == [] || out.effects == [EnsureFolder(BuildFolder)]
          || out.effects == [EnsureFolder(BuildFolder), EnsureFile(DockerIgnorePath, DockerIgnoreContents)];
    }
  }

  /** With `--output`, once the gates before the write pass, the Dockerfile is
      written to the project root and nothing else happens; the run ends
      without an error exactly when the tag is accepted. */
  lemma OutputWritesDockerfile(c: Subcommand, env: Environment, m: Manifest)
    requires Setup(env) && env.load == Loaded(m) && !env.dockerfileWriteFails
    requires !(c.RunCommand? && ResolvedExecutable(c, m).None?)
    requires c.options.output
    ensures RunBuildOutcome(c, env).effects
         == [EnsureFolder(".build"), EnsureFile(".dockerignore", ".build\n.git"),
             WriteFile("Dockerfile", Render(MakeContext(c.options, OperationOf(c), ResolvedExecutable(c, m))))]
    ensures RunBuildOutcome(c, env).abort.None? <==> SelectTag(c.options.tag, ResolvedExecutable(c, m), env.cwd).Success?
  {
  }
}
