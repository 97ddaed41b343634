/** The built-in Dockerfile template, rendered for one context.

    The template is a fixed text with three conditional parts: a section on
    `executable` that adds the staging and run stage, a section on
    `configuration` inside it that adds `-c <configuration> ` to the `cp`
    line, and an inverted section on `noSlim` that adds `-slim` to the run
    image. The section tags stand alone on their lines, so those lines
    vanish from the output. Each output line is kept as a `Line` value: a
    blank line, a `#` comment, or an instruction with its keyword. */
module Template {
  import opened Base
  import opened Commands
  import opened Contexts

  datatype Keyword = FROM | WORKDIR | COPY | RUN | USER | ENTRYPOINT | CMD

  /** The comment lines of the template, each a fixed text. */
  datatype Note =
    | Rule | BuildImageTitle | ResolveFirst | CachedLayer | AsLongAs | FilesUnchanged | CopyRepository
    | StagingArea | CopyExecutable | RunImageTitle | CreateUserNote | HomeDirectory | CopyBuilt
    | RunAsUser | RunExecutable

  /** The instruction arguments that do not depend on the context. */
  datatype Fixed =
    | BuildDirectory | PackageFiles | PackageResolve | EntireRepository | StagingDirectory
    | AddUser | AppDirectory | CopyFromBuild | UserAndGroup | NoArguments

  /** An instruction's arguments: fixed template text, or text filled in
      from the context. */
  datatype Arguments = Literal(fixed: Fixed) | Filled(text: string)

  /** One output line: blank, a `#` comment, or an instruction. */
  datatype Line = Blank | Comment(note: Note) | Instruction(keyword: Keyword, arguments: Arguments)

  function KeywordText(k: Keyword): string
  {
    match k
    case FROM => "FROM"
    case WORKDIR => "WORKDIR"
    case COPY => "COPY"
    case RUN => "RUN"
    case USER => "USER"
    case ENTRYPOINT => "ENTRYPOINT"
    case CMD => "CMD"
  }

  function NoteText(n: Note): string
  {
    match n
    case Rule => "================================"
    case BuildImageTitle => "Build image"
    case ResolveFirst => "First just resolve dependencies."
    case CachedLayer => "This creates a cached layer that can be reused"
    case AsLongAs => "as long as your Package.swift/Package.resolved"
    case FilesUnchanged => "files do not change."
    case CopyRepository => "Copy entire repo into container"
    case StagingArea => "Switch to the staging area"
    case CopyExecutable => "Copy main executable to staging area"
    case RunImageTitle => "Run image"
    case CreateUserNote => "Create a swiftdocker user and group with /app as its home directory"
    case HomeDirectory => "Switch to the new home directory"
    case CopyBuilt => "Copy built executable and any staged resources from builder"
    case RunAsUser => "Ensure all further commands run as the swiftdocker user"
    case RunExecutable => "Run the executable when the image is run"
  }

  function FixedText(f: Fixed): string
  {
    match f
    case BuildDirectory => "/build"
    case PackageFiles => "./Package.* ./"
    case PackageResolve => "swift package resolve"
    case EntireRepository => ". ."
    case StagingDirectory => "/staging"
    case AddUser => "useradd --user-group --create-home --system --skel /dev/null --home-dir /app swiftdocker"
    case AppDirectory => "/app"
    case CopyFromBuild => "--from=build --chown=swiftdocker:swiftdocker /staging /app"
    case UserAndGroup => "swiftdocker:swiftdocker"
    case NoArguments => "[]"
  }

  function ArgumentsText(a: Arguments): string
  {
    match a
    case Literal(f) => FixedText(f)
    case Filled(t) => t
  }

  /** The text of one line, without its newline. */
  function LineText(l: Line): string
  {
    match l
    case Blank => ""
    case Comment(n) => "# " + NoteText(n)
    case Instruction(k, a) => KeywordText(k) + " " + ArgumentsText(a)
  }

  /** The file contents: every line followed by a newline. */
  function Text(lines: seq<Line>): string
  {
    if |lines| == 0 then "" else LineText(lines[0]) + "\n" + Text(lines[1..])
  }

  /** The start of the `cp` command, up to where the configuration flag goes. */
  const CopyHead := "cp \"$(swift build --package-path /build "

  /** `{{#configuration}}-c {{.}} {{/configuration}}`. */
  function ConfigurationFlag(configuration: Option<Configuration>): (flag: string)
    ensures configuration.None? <==> flag == ""
    ensures configuration.Some? ==> |flag| >= 3 && flag[..3] == "-c "
  {
    if configuration.Some? then "-c " + ConfigurationName(configuration.value) + " " else ""
  }

  /** `{{image}}{{^noSlim}}-slim{{/noSlim}}`. */
  function RunImage(image: string, noSlim: bool): string
  {
    if noSlim then image else image + "-slim"
  }

  /** The rest of the `cp` command after the configuration flag: the binary
      path, the executable's name and the destination. */
  function CopyTail(executable: string): (tail: string)
    ensures |tail| == |executable| + 21
    ensures tail[1] == '-'
    ensures tail[|tail| - |executable| - 5..] == "/" + executable + "\" ./"
  {
    var bin, last := "--show-bin-path)", "/" + executable + "\" ./";
    assert (bin + last)[|bin|..] == last;
    bin + last
  }

  /** Arguments of the `RUN cp` line that stages the executable. */
  function CopyArguments(configuration: Option<Configuration>, executable: string): (args: string)
    ensures |args| == |CopyHead| + |ConfigurationFlag(configuration)| + |CopyTail(executable)|
  {
    CopyHead + ConfigurationFlag(configuration) + CopyTail(executable)
  }

  /** The build stage, always present: resolve dependencies, copy the
      sources, run `swift <operation> <options>`. One function per paragraph. */
  function BuildStage(ctx: RenderContext): seq<Line>
  {
    BuildBanner(ctx.image) + BuildWorkdir() + ResolveDependencies() + CopySources()
    + SwiftCommand(ctx.operation, ctx.options)
  }

  function BuildBanner(image: string): (p: seq<Line>)
    ensures |p| == 5
  {
    [Comment(Rule), Comment(BuildImageTitle), Comment(Rule), Instruction(FROM, Filled(image + " as build")), Blank]
  }

  function BuildWorkdir(): (p: seq<Line>)
    ensures |p| == 2
  {
    [Instruction(WORKDIR, Literal(BuildDirectory)), Blank]
  }

  function ResolveDependencies(): (p: seq<Line>)
    ensures |p| == 7
  {
    [Comment(ResolveFirst), Comment(CachedLayer), Comment(AsLongAs), Comment(FilesUnchanged),
     Instruction(COPY, Literal(PackageFiles)), Instruction(RUN, Literal(PackageResolve)), Blank]
  }

  function CopySources(): (p: seq<Line>)
    ensures |p| == 3
  {
    [Comment(CopyRepository), Instruction(COPY, Literal(EntireRepository)), Blank]
  }

  function SwiftCommand(operation: Operation, options: string): (p: seq<Line>)
    ensures |p| == 2
  {
    [Instruction(RUN, Filled("swift " + OperationName(operation) + " " + options)), Blank]
  }

  /** The `{{#executable}}` section: stage the executable, then a run image
      holding only it, owned by an unprivileged user, as the entry point. */
  function RunStage(ctx: RenderContext, executable: string): seq<Line>
  {
    StagingWorkdir() + StageExecutable(ctx.configuration, executable) + RunImageStage(ctx.image, ctx.noSlim, executable)
  }

  /** The second `FROM` and everything after it. */
  function RunImageStage(image: string, noSlim: bool, executable: string): seq<Line>
  {
    RunBanner(image, noSlim) + ImageSetup(executable)
  }

  /** The run image's user, home directory, copied files and entry point. */
  function ImageSetup(executable: string): seq<Line>
  {
    CreateUser() + AppWorkdir() + CopyStaged() + SwitchUser() + EntryPoint(executable)
  }

  function StagingWorkdir(): (p: seq<Line>)
    ensures |p| == 3
  {
    [Comment(StagingArea), Instruction(WORKDIR, Literal(StagingDirectory)), Blank]
  }

  function StageExecutable(configuration: Option<Configuration>, executable: string): (p: seq<Line>)
    ensures |p| == 3
  {
    [Comment(CopyExecutable), Instruction(RUN, Filled(CopyArguments(configuration, executable))), Blank]
  }

  function RunBanner(image: string, noSlim: bool): (p: seq<Line>)
    ensures |p| == 5
  {
    [Comment(Rule), Comment(RunImageTitle), Comment(Rule), Instruction(FROM, Filled(RunImage(image, noSlim))), Blank]
  }

  function CreateUser(): (p: seq<Line>)
    ensures |p| == 3
  {
    [Comment(CreateUserNote), Instruction(RUN, Literal(AddUser)), Blank]
  }

  function AppWorkdir(): (p: seq<Line>)
    ensures |p| == 3
  {
    [Comment(HomeDirectory), Instruction(WORKDIR, Literal(AppDirectory)), Blank]
  }

  function CopyStaged(): (p: seq<Line>)
    ensures |p| == 3
  {
    [Comment(CopyBuilt), Instruction(COPY, Literal(CopyFromBuild)), Blank]
  }

  function SwitchUser(): (p: seq<Line>)
    ensures |p| == 3
  {
    [Comment(RunAsUser), Instruction(USER, Literal(UserAndGroup)), Blank]
  }

  function EntryPoint(executable: string): (p: seq<Line>)
    ensures |p| == 4
  {
    [Comment(RunExecutable), Instruction(ENTRYPOINT, Filled("[\"./" + executable + "\"]")),
     Instruction(CMD, Literal(NoArguments)), Blank]
  }

  /** The built-in template rendered for `ctx`. */
  function Render(ctx: RenderContext): (lines: seq<Line>)
    ensures |lines| == if ctx.executable.Some? then 46 else 19
  {
    BuildStageLines(ctx);
    var run := if ctx.executable.Some? then (RunStageLines(ctx, ctx.executable.value); RunStage(ctx, ctx.executable.value)) else [];
    BuildStage(ctx) + run
  }

  /** Position of the `RUN cp` line, the run-stage `FROM` line and the
      `ENTRYPOINT` line in a rendering with an executable. */
  const CopyLine := 23
  const RunFromLine := 28
  const EntrypointLine := 43

  /** The keywords of the instructions among `lines`, in order. */
  function Keywords(lines: seq<Line>): seq<Keyword>
  {
    if |lines| == 0 then [] else InstructionKeyword(lines[0]) + Keywords(lines[1..])
  }

  function InstructionKeyword(l: Line): seq<Keyword>
  {
    if l.Instruction? then [l.keyword] else []
  }

  lemma KeywordsCons(p: seq<Line>)
    requires |p| > 0
    ensures Keywords(p) == InstructionKeyword(p[0]) + Keywords(p[1..])
    ensures |p| == 1 ==> Keywords(p) == InstructionKeyword(p[0])
  {
    if |p| == 1 {
      assert p[1..] == [];
    }
  }

  lemma {:induction false} KeywordsConcat(a: seq<Line>, b: seq<Line>)
    ensures Keywords(a + b) == Keywords(a) + Keywords(b)
  {
    if |a| == 0 {
      assert a + b == b;
    } else {
      var h, t := InstructionKeyword(a[0]), Keywords(a[1..]);
      assert (a + b)[0] == a[0];
      assert (a + b)[1..] == a[1..] + b;
      KeywordsConcat(a[1..], b);
      assert Keywords(a + b) == h + (t + Keywords(b));
      assert Keywords(a) == h + t;
      assert h + (t + Keywords(b)) == (h + t) + Keywords(b);
    }
  }

  /** Line positions and contents in a rendering: the build stage is 19
      lines, the run stage 27 more, present exactly when an executable is. */
  lemma RenderedLines(ctx: RenderContext)
    ensures |Render(ctx)| == if ctx.executable.Some? then 46 else 19
    ensures Render(ctx)[3] == Instruction(FROM, Filled(ctx.image + " as build"))
    ensures Render(ctx)[17] == Instruction(RUN, Filled("swift " + OperationName(ctx.operation) + " " + ctx.options))
    ensures ctx.executable.Some? ==>
              Render(ctx)[CopyLine] == Instruction(RUN, Filled(CopyArguments(ctx.configuration, ctx.executable.value)))
              && Render(ctx)[RunFromLine] == Instruction(FROM, Filled(RunImage(ctx.image, ctx.noSlim)))
              && Render(ctx)[EntrypointLine] == Instruction(ENTRYPOINT, Filled("[\"./" + ctx.executable.value + "\"]"))
  {
    var b := BuildStage(ctx);
    BuildStageLines(ctx);
    if ctx.executable.Some? {
      var r := RunStage(ctx, ctx.executable.value);
      RunStageLines(ctx, ctx.executable.value);
      assert Render(ctx) == b + r;
      assert (b + r)[CopyLine] == r[CopyLine - 19];
      assert (b + r)[RunFromLine] == r[RunFromLine - 19];
      assert (b + r)[EntrypointLine] == r[EntrypointLine - 19];
      assert (b + r)[3] == b[3] && (b + r)[17] == b[17];
    } else {
      assert Render(ctx) == b;
    }
  }

  lemma BuildStageLines(ctx: RenderContext)
    ensures |BuildStage(ctx)| == 19
    ensures BuildStage(ctx)[3] == Instruction(FROM, Filled(ctx.image + " as build"))
    ensures BuildStage(ctx)[17] == Instruction(RUN, Filled("swift " + OperationName(ctx.operation) + " " + ctx.options))
  {
    var p1, p2, p3, p4, p5 := BuildBanner(ctx.image), BuildWorkdir(), ResolveDependencies(), CopySources(),
                              SwiftCommand(ctx.operation, ctx.options);
    assert BuildStage(ctx) == (p1 + p2 + p3 + p4) + p5;
    assert (p1 + p2 + p3 + p4)[3] == p1[3];
  }

  lemma RunStageLines(ctx: RenderContext, executable: string)
    ensures |RunStage(ctx, executable)| == 27
    ensures RunStage(ctx, executable)[CopyLine - 19] == Instruction(RUN, Filled(CopyArguments(ctx.configuration, executable)))
    ensures RunStage(ctx, executable)[RunFromLine - 19] == Instruction(FROM, Filled(RunImage(ctx.image, ctx.noSlim)))
    ensures RunStage(ctx, executable)[EntrypointLine - 19] == Instruction(ENTRYPOINT, Filled("[\"./" + executable + "\"]"))
  {
    var p1, p2 := StagingWorkdir(), StageExecutable(ctx.configuration, executable);
    var img := RunImageStage(ctx.image, ctx.noSlim, executable);
    ImageStageLines(ctx.image, ctx.noSlim, executable);
    assert (p1 + p2)[4] == p2[1];
    assert (p1 + p2 + img)[4] == (p1 + p2)[4];
    assert (p1 + p2 + img)[9] == img[3];
    assert (p1 + p2 + img)[24] == img[18];
  }

  lemma ImageStageLines(image: string, noSlim: bool, executable: string)
    ensures |RunImageStage(image, noSlim, executable)| == 21
    ensures RunImageStage(image, noSlim, executable)[3] == Instruction(FROM, Filled(RunImage(image, noSlim)))
    ensures RunImageStage(image, noSlim, executable)[18] == Instruction(ENTRYPOINT, Filled("[\"./" + executable + "\"]"))
  {
    var banner, setup := RunBanner(image, noSlim), ImageSetup(executable);
    var front := CreateUser() + AppWorkdir() + CopyStaged() + SwitchUser();
    assert setup == front + EntryPoint(executable);
    assert setup[13] == EntryPoint(executable)[1];
    assert (banner + setup)[3] == banner[3];
    assert (banner + setup)[18] == setup[13];
  }

  const BuildStageKeywords: seq<Keyword> := [FROM, WORKDIR, COPY, RUN, COPY, RUN]
  const RunStageKeywords: seq<Keyword> := [WORKDIR, RUN, FROM, RUN, WORKDIR, COPY, USER, ENTRYPOINT, CMD]

  /** Unrolls `Keywords` over every line of `p`. */
  lemma KeywordsUnrolled(p: seq<Line>)
    requires 0 < |p| <= 7
    ensures Keywords(p) == InstructionKeyword(p[0]) + Keywords(p[1..])
    ensures |p| >= 2 ==> Keywords(p[1..]) == InstructionKeyword(p[1]) + Keywords(p[2..])
    ensures |p| >= 3 ==> Keywords(p[2..]) == InstructionKeyword(p[2]) + Keywords(p[3..])
    ensures |p| >= 4 ==> Keywords(p[3..]) == InstructionKeyword(p[3]) + Keywords(p[4..])
    ensures |p| >= 5 ==> Keywords(p[4..]) == InstructionKeyword(p[4]) + Keywords(p[5..])
    ensures |p| >= 6 ==> Keywords(p[5..]) == InstructionKeyword(p[5]) + Keywords(p[6..])
    ensures |p| >= 7 ==> Keywords(p[6..]) == InstructionKeyword(p[6]) + Keywords(p[7..])
    ensures Keywords(p[|p|..]) == []
  {
  }

  lemma BuildParagraphKeywords(ctx: RenderContext)
    ensures Keywords(BuildBanner(ctx.image)) == [FROM]
    ensures Keywords(BuildWorkdir()) == [WORKDIR]
    ensures Keywords(ResolveDependencies()) == [COPY, RUN]
    ensures Keywords(CopySources()) == [COPY]
    ensures Keywords(SwiftCommand(ctx.operation, ctx.options)) == [RUN]
  {
    KeywordsUnrolled(BuildBanner(ctx.image));
    KeywordsUnrolled(SwiftCommand(ctx.operation, ctx.options));
  }

  /** `Keywords` distributes over a concatenation of five paragraphs. */
  lemma KeywordsConcat5(a: seq<Line>, b: seq<Line>, c: seq<Line>, d: seq<Line>, e: seq<Line>)
    ensures Keywords(a + b + c + d + e) == Keywords(a) + Keywords(b) + Keywords(c) + Keywords(d) + Keywords(e)
  {
    KeywordsConcat(a, b);
    KeywordsConcat(a + b, c);
    KeywordsConcat(a + b + c, d);
    KeywordsConcat(a + b + c + d, e);
  }

  lemma BuildStageKeywordsSpelled()
    ensures [FROM] + [WORKDIR] + [COPY, RUN] + [COPY] + [RUN] == BuildStageKeywords
  {
  }

  lemma BuildStageInstructions(ctx: RenderContext)
    ensures Keywords(BuildStage(ctx)) == BuildStageKeywords
  {
    BuildParagraphKeywords(ctx);
    BuildStageKeywordsSpelled();
    KeywordsConcat5(BuildBanner(ctx.image), BuildWorkdir(), ResolveDependencies(), CopySources(),
                    SwiftCommand(ctx.operation, ctx.options));
  }

  lemma StagingKeywords(configuration: Option<Configuration>, executable: string)
    ensures Keywords(StagingWorkdir()) == [WORKDIR]
    ensures Keywords(StageExecutable(configuration, executable)) == [RUN]
  {
    KeywordsUnrolled(StageExecutable(configuration, executable));
  }

  lemma BannerKeywords(image: string, noSlim: bool)
    ensures Keywords(RunBanner(image, noSlim)) == [FROM]
  {
    KeywordsUnrolled(RunBanner(image, noSlim));
  }

  lemma SetupParagraphKeywords(executable: string)
    ensures Keywords(CreateUser()) == [RUN]
    ensures Keywords(AppWorkdir()) == [WORKDIR]
    ensures Keywords(CopyStaged()) == [COPY]
    ensures Keywords(SwitchUser()) == [USER]
    ensures Keywords(EntryPoint(executable)) == [ENTRYPOINT, CMD]
  {
    KeywordsUnrolled(EntryPoint(executable));
  }

  lemma SetupKeywordsSpelled()
    ensures [RUN] + [WORKDIR] + [COPY] + [USER] + [ENTRYPOINT, CMD] == RunStageKeywords[3..]
  {
  }

  lemma ImageSetupInstructions(executable: string)
    ensures Keywords(ImageSetup(executable)) == RunStageKeywords[3..]
  {
    SetupParagraphKeywords(executable);
    SetupKeywordsSpelled();
    KeywordsConcat5(CreateUser(), AppWorkdir(), CopyStaged(), SwitchUser(), EntryPoint(executable));
  }

  lemma RunStageKeywordsSpelled()
    ensures [WORKDIR] + [RUN] + ([FROM] + RunStageKeywords[3..]) == RunStageKeywords
  {
  }

  lemma RunStageInstructions(ctx: RenderContext, executable: string)
    ensures Keywords(RunStage(ctx, executable)) == RunStageKeywords
  {
    var p1, p2 := StagingWorkdir(), StageExecutable(ctx.configuration, executable);
    var banner, setup := RunBanner(ctx.image, ctx.noSlim), ImageSetup(executable);
    StagingKeywords(ctx.configuration, executable);
    BannerKeywords(ctx.image, ctx.noSlim);
    ImageSetupInstructions(executable);
    KeywordsConcat(banner, setup);
    KeywordsConcat(p1, p2);
    KeywordsConcat(p1 + p2, banner + setup);
    RunStageKeywordsSpelled();
  }

  /** The instructions of a rendering, in order: the build stage's six, then
      the run stage's nine exactly when there is an executable. */
  lemma RenderedInstructions(ctx: RenderContext)
    ensures Keywords(Render(ctx)) == BuildStageKeywords + (if ctx.executable.Some? then RunStageKeywords else [])
  {
    BuildStageInstructions(ctx);
    var b := BuildStage(ctx);
    if ctx.executable.Some? {
      var r := RunStage(ctx, ctx.executable.value);
      RunStageInstructions(ctx, ctx.executable.value);
      assert Render(ctx) == b + r;
      KeywordsConcat(b, r);
    } else {
      assert Render(ctx) == b;
      assert BuildStageKeywords + [] == BuildStageKeywords;
    }
  }

  /** One `FROM` without an executable and two with one; the single
      `ENTRYPOINT`, `USER` and `CMD` appear only with an executable. */
  lemma RenderedKeywordCounts(ctx: RenderContext)
    ensures multiset(Keywords(Render(ctx)))[FROM] == if ctx.executable.Some? then 2 else 1
    ensures multiset(Keywords(Render(ctx)))[ENTRYPOINT] == if ctx.executable.Some? then 1 else 0
    ensures multiset(Keywords(Render(ctx)))[USER] == if ctx.executable.Some? then 1 else 0
    ensures multiset(Keywords(Render(ctx)))[CMD] == if ctx.executable.Some? then 1 else 0
  {
    RenderedInstructions(ctx);
    BuildStageKeywordCounts();
    RunStageKeywordCounts();
    var ks := Keywords(Render(ctx));
    if ctx.executable.Some? {
      MultisetConcat(BuildStageKeywords, RunStageKeywords);
    } else {
      assert ks == BuildStageKeywords;
    }
  }

  lemma MultisetConcat(a: seq<Keyword>, b: seq<Keyword>)
    ensures multiset(a + b) == multiset(a) + multiset(b)
  {
  }

  /** How often the keywords that tell the two stages apart occur in each stage. */
  lemma BuildStageKeywordCounts()
    ensures multiset(BuildStageKeywords)[FROM] == 1 && multiset(BuildStageKeywords)[ENTRYPOINT] == 0
    ensures multiset(BuildStageKeywords)[USER] == 0 && multiset(BuildStageKeywords)[CMD] == 0
  {
  }

  lemma RunStageKeywordCounts()
    ensures multiset(RunStageKeywords)[FROM] == 1 && multiset(RunStageKeywords)[ENTRYPOINT] == 1
    ensures multiset(RunStageKeywords)[USER] == 1 && multiset(RunStageKeywords)[CMD] == 1
  {
  }

  /** Replacing one element of the middle part of a concatenation. */
  lemma UpdateInConcat(a: seq<Line>, x: seq<Line>, c: seq<Line>, i: nat, v: Line)
    requires i < |x|
    ensures a + x[i := v] + c == (a + x + c)[|a| + i := v]
  {
  }

  /** The rendering without an executable is the first 19 lines of the one
      with it: the `{{#executable}}` section only appends. */
  lemma ExecutableSectionAppends(ctx: RenderContext)
    ensures Render(ctx.(executable := None)) == Render(ctx)[..19]
  {
    BuildStageLines(ctx);
    var b := BuildStage(ctx);
    assert BuildStage(ctx.(executable := None)) == b;
    if ctx.executable.Some? {
      assert Render(ctx) == b + RunStage(ctx, ctx.executable.value);
      assert (b + RunStage(ctx, ctx.executable.value))[..19] == b;
    } else {
      assert Render(ctx) == b;
    }
  }

  /** In the run stage, the configuration shows only in its fifth line. */
  lemma ConfigurationChangesOnlyStagedCopy(ctx: RenderContext, configuration: Option<Configuration>, exe: string)
    ensures |RunStage(ctx, exe)| > 4
    ensures RunStage(ctx.(configuration := configuration), exe)
         == RunStage(ctx, exe)[4 := Instruction(RUN, Filled(CopyArguments(configuration, exe)))]
  {
    var p1, p2 := StagingWorkdir(), StageExecutable(ctx.configuration, exe);
    var img := RunImageStage(ctx.image, ctx.noSlim, exe);
    var v := Instruction(RUN, Filled(CopyArguments(configuration, exe)));
    assert StageExecutable(configuration, exe) == p2[1 := v];
    UpdateInConcat(p1, p2, img, 1, v);
  }

  /** Setting a configuration changes exactly one line: the `RUN cp` line. */
  lemma ConfigurationChangesOnlyCopyLine(ctx: RenderContext, configuration: Option<Configuration>)
    requires ctx.executable.Some?
    ensures Render(ctx.(configuration := configuration))
         == Render(ctx)[CopyLine := Instruction(RUN, Filled(CopyArguments(configuration, ctx.executable.value)))]
  {
    var other := ctx.(configuration := configuration);
    var exe := ctx.executable.value;
    var b := BuildStage(ctx);
    var v := Instruction(RUN, Filled(CopyArguments(configuration, exe)));
    assert BuildStage(other) == b;
    ConfigurationChangesOnlyStagedCopy(ctx, configuration, exe);
    BuildStageLines(ctx);
    UpdateInConcat(b, RunStage(ctx, exe), [], 4, v);
    assert Render(ctx) == b + RunStage(ctx, exe) + [];
    assert Render(other) == b + RunStage(other, exe) + [];
  }

  /** In the run stage, `noSlim` shows only in its tenth line. */
  lemma NoSlimChangesOnlyStagedImage(ctx: RenderContext, noSlim: bool, exe: string)
    ensures |RunStage(ctx, exe)| > 9
    ensures RunStage(ctx.(noSlim := noSlim), exe) == RunStage(ctx, exe)[9 := Instruction(FROM, Filled(RunImage(ctx.image, noSlim)))]
  {
    var front := StagingWorkdir() + StageExecutable(ctx.configuration, exe);
    var banner, setup := RunBanner(ctx.image, ctx.noSlim), ImageSetup(exe);
    var v := Instruction(FROM, Filled(RunImage(ctx.image, noSlim)));
    assert RunBanner(ctx.image, noSlim) == banner[3 := v];
    UpdateInConcat([], banner, setup, 3, v);
    assert [] + banner == banner && [] + banner[3 := v] == banner[3 := v];
    UpdateInConcat(front, RunImageStage(ctx.image, ctx.noSlim, exe), [], 3, v);
    assert front + RunImageStage(ctx.image, ctx.noSlim, exe) + [] == RunStage(ctx, exe);
    assert front + RunImageStage(ctx.image, noSlim, exe) + [] == RunStage(ctx.(noSlim := noSlim), exe);
  }

  /** `noSlim` changes exactly one line, the run stage's `FROM`, and only
      when there is a run stage. */
  lemma NoSlimChangesOnlyRunImage(ctx: RenderContext, noSlim: bool)
    ensures ctx.executable.None? ==> Render(ctx.(noSlim := noSlim)) == Render(ctx)
    ensures ctx.executable.Some? ==>
              Render(ctx.(noSlim := noSlim)) == Render(ctx)[RunFromLine := Instruction(FROM, Filled(RunImage(ctx.image, noSlim)))]
  {
    var other := ctx.(noSlim := noSlim);
    var b := BuildStage(ctx);
    assert BuildStage(other) == b;
    if ctx.executable.Some? {
      var exe := ctx.executable.value;
      var v := Instruction(FROM, Filled(RunImage(ctx.image, noSlim)));
      NoSlimChangesOnlyStagedImage(ctx, noSlim, exe);
      BuildStageLines(ctx);
      UpdateInConcat(b, RunStage(ctx, exe), [], 9, v);
      assert Render(ctx) == b + RunStage(ctx, exe) + [];
      assert Render(other) == b + RunStage(other, exe) + [];
    }
  }

  lemma SliceAfter(h: string, rest: string, k: nat)
    requires k <= |rest|
    ensures (h + rest)[|h|..|h| + k] == rest[..k]
  {
  }

  lemma SliceMiddle(h: string, m: string, t: string)
    ensures (h + m + t)[|h|..|h| + |m|] == m
  {
    assert h + m + t == h + (m + t);
    SliceAfter(h, m + t, |m|);
    assert (m + t)[..|m|] == m;
  }

  lemma SliceSuffix(h: string, rest: string, k: nat)
    requires k <= |rest|
    ensures (h + rest)[|h + rest| - k..] == rest[|rest| - k..]
  {
  }

  /** Whatever precedes it, a piece that is empty or starts with `-c ` puts
      `-c ` right after it exactly when it is not empty, provided what
      follows does not start with `-c ` itself. */
  lemma FlagSlot(head: string, flag: string, tail: string)
    requires flag == "" || (|flag| >= 3 && flag[..3] == "-c ")
    requires |tail| >= 3 && tail[1] == '-'
    ensures |head + flag + tail| >= |head| + 3
    ensures (head + flag + tail)[|head|..|head| + 3] == "-c " <==> flag != ""
  {
    assert head + flag + tail == head + (flag + tail);
    SliceAfter(head, flag + tail, 3);
    if flag == "" {
      assert flag + tail == tail;
      assert tail[..3] != "-c " by { assert tail[..3][1] == tail[1]; }
    } else {
      assert (flag + tail)[..3] == flag[..3];
    }
  }

  /** The `cp` command carries a `-c` flag right after `--package-path /build `
      exactly when a configuration is set, and then it is `-c <configuration> `. */
  lemma CopyFlagIffConfiguration(configuration: Option<Configuration>, executable: string)
    ensures |CopyArguments(configuration, executable)| >= |CopyHead| + 3
    ensures CopyArguments(configuration, executable)[|CopyHead|..|CopyHead| + 3] == "-c " <==> configuration.Some?
    ensures configuration.Some? ==>
              var flag := "-c " + ConfigurationName(configuration.value) + " ";
              |CopyArguments(configuration, executable)| >= |CopyHead| + |flag|
              && CopyArguments(configuration, executable)[|CopyHead|..|CopyHead| + |flag|] == flag
  {
    FlagSlot(CopyHead, ConfigurationFlag(configuration), CopyTail(executable));
    if configuration.Some? {
      SliceMiddle(CopyHead, ConfigurationFlag(configuration), CopyTail(executable));
    }
  }

  /** The `cp` command names the executable last, right after the `/` that
      ends the binary path, followed by the destination `./`, whatever the
      configuration. */
  lemma CopyNamesExecutableLast(configuration: Option<Configuration>, executable: string)
    ensures |CopyArguments(configuration, executable)| >= |executable| + 5
    ensures CopyArguments(configuration, executable)[|CopyArguments(configuration, executable)| - |executable| - 5..]
         == "/" + executable + "\" ./"
  {
    var pre, tail := CopyHead + ConfigurationFlag(configuration), CopyTail(executable);
    var args := CopyArguments(configuration, executable);
    assert args == pre + tail;
    SliceSuffix(pre, tail, |executable| + 5);
    assert args[|args| - |executable| - 5..] == tail[|tail| - |executable| - 5..];
  }
}
