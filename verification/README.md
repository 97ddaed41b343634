# swift-docker, modelled in Dafny

`swift-docker` is a command-line tool. It builds, tests and runs a Swift
package inside a Docker container. For the `build`, `test` and `run`
subcommands it does the following, in order:

- creates the build folder `.build` and a `.dockerignore`;
- loads the package manifest;
- resolves which executable, if any, the image should stage;
- renders a Dockerfile from a built-in mustache template and writes it;
- picks an image tag;
- runs `docker build`;
- for `run`, runs `docker run` on the image it just built.

The model covers the decision logic in front of the two `docker` invocations.
It uses immutable datatypes and pure functions.

| module | file | what it models |
|---|---|---|
| `Base` | `base.dfy` | `Option`/`Result`, Swift's `joined(separator:)` and `split(separator:)` (empty pieces dropped), the last path component |
| `Errors` | `errors.dfy` | `SwiftDockerError` and its `description` |
| `Commands` | `commands.dfy` | `BuildOperation`, `BuildConfiguration`, the `BuildOptions` option group with its defaults, the subcommands and the operation each one fixes |
| `Resolver` | `resolver.dfy` | the manifest as lists of `(name, kind)` and the choice of the executable |
| `Tags` | `tags.dfy` | strict validation of `--tag`, lenient derivation of a tag from the working directory, the choice between the two |
| `Contexts` | `contexts.dfy` | the template context: the `options` string, `run` built as `build`, the Dockerfile path |
| `Template` | `template.dfy` | the built-in template rendered as a sequence of lines (blank, `#` comment, or instruction with its keyword) |
| `DockerArgs` | `docker_args.dfy` | the argument vectors of `docker build` and `docker run`, with parsers that read them back |
| `Pipeline` | `pipeline.dfy` | `runBuild` as one sequential function from a subcommand and an environment to the ordered effects and the way it stopped |

The environment of `runBuild` is a parameter. It says:

- whether creating `.build` fails;
- whether writing `.dockerignore` fails;
- whether writing the Dockerfile fails;
- what the package loader returned;
- the exit code of `docker build`;
- the working directory.

The effects are:

- ensuring the folder;
- ensuring the ignore file;
- writing the Dockerfile;
- executing an argument vector.

A run stops in one of two ways:

- `Raised`: the error leaves `runBuild`.
- `Printed`: the error is caught inside the manifest callback and only printed.

Four behaviours of the code are easy to get wrong, and the model states them as the code has them:

- **Resolution without `--product` or `--target`.** An executable is looked for only by `run`. `build` and `test` stage nothing and derive no tag, even when the package has an executable product.
- **Errors inside the manifest callback.** These are the missing executable, the failed Dockerfile write, the illegal tag and a failed manifest load. Each is printed and swallowed, so `runBuild` returns normally. In the model, only the failures to create `.build` and `.dockerignore` propagate (`Pipeline.OnlySetupErrorsPropagate`); the loader and template errors that the code also lets through are listed under "Left out".
- **Order of the tag check.** The Dockerfile is written before a `--tag` value is checked. An illegal tag therefore still leaves the file written, and docker is never invoked (`Pipeline.InvalidUserTagAfterWrite`).
- **Derived tags.** A derived tag is never checked for its first character or for being empty (`Tags.DerivedTagMayStartWithDigit`, `Tags.DerivedTagMayBeEmpty`).

The template is a Swift multi-line literal. Its four-space indentation is stripped. The `{{#executable}}` and `{{/executable}}` tags stand alone on their lines, and mustache removes standalone lines. As a result:

- the build stage is lines 4–22 of the template, 19 output lines;
- the run stage is lines 24–50, 27 more output lines;
- the `RUN cp` line is output line 23;
- the run-stage `FROM` is output line 28;
- `ENTRYPOINT` is output line 43.

Output lines are numbered from 0.

## Model

| member | source | states |
|---|---|---|
| Base.Join | Sources/swift-docker/SwiftDockerBuild.swift:158 | `joined(separator:)`; its contract is stated by `Base.SplitJoin` (splitting the join of non-empty, separator-free words gives back exactly those words) and `Contexts.JoinThenSpace` (exactly one separator between neighbouring words) |
| Base.Split | Sources/swift-docker/SwiftDockerBuild.swift:82 | every component of a split is non-empty and free of the separator |
| Base.SplitJoin | Sources/swift-docker/SwiftDockerBuild.swift:158 | joining non-empty, separator-free words and splitting the result gives the words back |
| Base.LastComponentIsLastOfSplit | Sources/swift-docker/SwiftDockerBuild.swift:82-83 | `split(separator:).last` is the component read from the right after dropping trailing separators |
| Base.NoComponentIffOnlySeparators | Sources/swift-docker/SwiftDockerBuild.swift:82-83 | a path has no component exactly when it consists of separators only |
| Errors.Description | Sources/swift-docker/Error.swift:15-27 | the four messages: `Failed to create <f> folder.`, `Failed to create <f> file.`, `swift docker run requires an executable.`, `Illegal Docker tag name.` |
| Errors.DescriptionInjective | Sources/swift-docker/Error.swift:8-27 | distinct errors print distinct messages, so the message identifies the case and its path |
| Commands.OperationRawValues | Sources/swift-docker/SwiftDocker.swift:5-10 | the operations are exactly build/test/edit/run; parsing accepts exactly those raw values and is inverse to printing |
| Commands.ConfigurationRawValues | Sources/swift-docker/SwiftDocker.swift:12-15 | the configurations are exactly debug/release; parsing and printing are inverse |
| Commands.DefaultBuildOptions | Sources/swift-docker/SwiftDocker.swift:23-58 | defaults: image `swift:5.5`, output and noSlim off, no tag, configuration, product or target, no env, no pass-through arguments |
| Commands.DefaultRunCommand | Sources/swift-docker/SwiftDocker.swift:97-103 | `run` defaults to no published ports and no `--rm` |
| Commands.OperationOf | Sources/swift-docker/SwiftDocker.swift:60-95 | `build`, `test` and `run` fix the operations of the same name, each its own, never `edit` |
| Resolver.FirstNamed | Sources/swift-docker/SwiftDockerBuild.swift:47 | `first(where:)` by name: none exactly when no unit has the name, otherwise the unit at the first position with it |
| Resolver.FirstExecutableName | Sources/swift-docker/SwiftDockerBuild.swift:56-57 | none exactly when no unit is executable, otherwise the name at the first executable position |
| Resolver.SelectNamed | Sources/swift-docker/SwiftDockerBuild.swift:45-52 | the given name is staged exactly when the first unit carrying it is executable |
| Resolver.Resolve | Sources/swift-docker/SwiftDockerBuild.swift:44-59 | `--product` stages its name iff the first product so named is executable; failing that `--target` likewise over targets; with neither, only `run` stages, the first executable product else the first executable target, and nothing iff there is none |
| Resolver.LibraryProductStagesNothing | Sources/swift-docker/SwiftDockerBuild.swift:46-49 | a named product that is not executable stages nothing, whatever `--target` says |
| Resolver.LibraryThenAppExample | Sources/swift-docker/SwiftDockerBuild.swift:54-58 | with a library then an executable product, `run` stages the executable and `build` stages nothing |
| Tags.FirstInvalid | Sources/swift-docker/SwiftDockerBuild.swift:76 | no position exactly when every character is a tag character; otherwise the first position of one that is not |
| Tags.ValidateUserTag | Sources/swift-docker/SwiftDockerBuild.swift:72-79 | a `--tag` value is accepted unchanged iff it is non-empty, starts with an ASCII letter and has only letters, digits, `-`, `_`, `.` (the sets of lines 202-203); otherwise `invalidTagCharacters` |
| Tags.Lowercased | Sources/swift-docker/SwiftDockerBuild.swift:85 | same length, each character lower-cased |
| Tags.Sanitize | Sources/swift-docker/SwiftDockerBuild.swift:87-90 | never longer, only tag characters, and a character survives iff it was there and is a tag character |
| Tags.SanitizeConcat | Sources/swift-docker/SwiftDockerBuild.swift:87-90 | the filter distributes over concatenation, so the order of kept characters is the input's |
| Tags.SanitizeFixedPoints | Sources/swift-docker/SwiftDockerBuild.swift:87-90 | sanitising leaves a string unchanged iff it consists of tag characters |
| Tags.SanitizeIdempotent | Sources/swift-docker/SwiftDockerBuild.swift:87-90 | sanitising twice is sanitising once |
| Tags.DeriveTag | Sources/swift-docker/SwiftDockerBuild.swift:82-91 | a derived tag has only tag characters and no upper-case letter |
| Tags.DeriveTagUsesLastComponent | Sources/swift-docker/SwiftDockerBuild.swift:82-90 | the derived tag is the last non-empty `/` component, lower-cased and filtered |
| Tags.DeriveTagNoneIffOnlySlashes | Sources/swift-docker/SwiftDockerBuild.swift:82-84 | no tag is derived exactly when the path is made of slashes only |
| Tags.DeriveTagOfChild | Sources/swift-docker/SwiftDockerBuild.swift:84-91 | inside any directory path, a directory `name` without `/` derives `name` lower-cased and filtered to tag characters |
| Tags.DerivedTagMayStartWithDigit | Sources/swift-docker/SwiftDockerBuild.swift:84-91 | `/work/1App` derives `1app`, a tag `--tag` would refuse |
| Tags.DerivedTagMayBeEmpty | Sources/swift-docker/SwiftDockerBuild.swift:84-91 | `/work/@@` derives the empty tag |
| Tags.SelectTag | Sources/swift-docker/SwiftDockerBuild.swift:72-93 | fails exactly for an illegal `--tag`; a legal one is used unchanged; with none, no executable means no tag, and an executable means the tag derived from the working directory (`DeriveTag`), made of valid characters and absent iff the path is all slashes |
| Contexts.OptionsString | Sources/swift-docker/SwiftDockerBuild.swift:158-166 | the `options` string; its contract is stated by `Contexts.OptionsStringLayout` and `Contexts.OptionsStringWords` |
| Contexts.JoinThenSpace | Sources/swift-docker/SwiftDockerBuild.swift:158 | the pass-through arguments joined by `" "`, followed by one more space, are each argument followed by exactly one space |
| Contexts.OptionsStringLayout | Sources/swift-docker/SwiftDockerBuild.swift:158-166 | the options string is `-c <cfg> ` if set, then `--product <p> ` or else `--target <t> ` if set, then the pass-through arguments joined by single spaces |
| Contexts.OptionsStringWords | Sources/swift-docker/SwiftDockerBuild.swift:158-166 | when no word holds a space, splitting the options string at spaces gives back exactly the flags and arguments, in order |
| Contexts.StageOperation | Sources/swift-docker/SwiftDockerBuild.swift:168-172 | the rendered operation is never `run`: `run` becomes `build`, the others stay |
| Contexts.MakeContext | Sources/swift-docker/SwiftDockerBuild.swift:173-180 | the context carries the image, noSlim, configuration and executable as given, the operation after the `run` substitution, and the options string |
| Contexts.DockerfilePath | Sources/swift-docker/SwiftDockerBuild.swift:60-63 | `Dockerfile` exactly with `--output`, `.build/Dockerfile` exactly without |
| Template.Render | Sources/swift-docker/SwiftDockerTemplate.swift:3-53 | 46 lines with an executable, 19 without; see also `Template.RenderedLines`, `Template.RenderedInstructions`, `Template.ExecutableSectionAppends` |
| Template.RenderedLines | Sources/swift-docker/SwiftDockerTemplate.swift:3-53 | 19 lines without an executable, 46 with one; the lines `FROM <image> as build`, `RUN swift <operation> <options>`, the `cp` line, the run-stage `FROM` and `ENTRYPOINT ["./<executable>"]` at fixed positions |
| Template.BuildStageLines | Sources/swift-docker/SwiftDockerTemplate.swift:4-22 | the build stage has 19 lines, with `FROM <image> as build` (line 7) and `RUN swift <operation> <options>` (line 21) |
| Template.RunStageLines | Sources/swift-docker/SwiftDockerTemplate.swift:24-50 | the run stage has 27 lines, with the `cp` line, the run-stage `FROM` and the `ENTRYPOINT` |
| Template.BuildStageInstructions | Sources/swift-docker/SwiftDockerTemplate.swift:4-22 | the build stage's instructions are FROM, WORKDIR, COPY, RUN, COPY, RUN |
| Template.RunStageInstructions | Sources/swift-docker/SwiftDockerTemplate.swift:24-50 | the run stage's instructions are WORKDIR, RUN, FROM, RUN, WORKDIR, COPY, USER, ENTRYPOINT, CMD |
| Template.RenderedInstructions | Sources/swift-docker/SwiftDockerTemplate.swift:23-51 | a rendering's instructions are the build stage's, followed by the run stage's exactly when there is an executable |
| Template.RenderedKeywordCounts | Sources/swift-docker/SwiftDockerTemplate.swift:48 | two `FROM` with an executable, one without; exactly one `ENTRYPOINT`, `USER` and `CMD` with an executable, none without |
| Template.ExecutableSectionAppends | Sources/swift-docker/SwiftDockerTemplate.swift:23-51 | the rendering without an executable is the first 19 lines of the one with it |
| Template.ConfigurationChangesOnlyCopyLine | Sources/swift-docker/SwiftDockerTemplate.swift:28 | changing the configuration changes the `RUN cp` line and no other |
| Template.CopyFlagIffConfiguration | Sources/swift-docker/SwiftDockerTemplate.swift:28 | the `cp` command has `-c ` right after `--package-path /build ` iff a configuration is set, and then that slot is `-c <configuration> ` |
| Template.CopyNamesExecutableLast | Sources/swift-docker/SwiftDockerTemplate.swift:28 | the `cp` line ends with `/<executable>" ./`: the `/` that closes `--show-bin-path)`, the executable name, then the destination |
| Template.NoSlimChangesOnlyRunImage | Sources/swift-docker/SwiftDockerTemplate.swift:33 | noSlim changes only the run-stage `FROM` (`<image>` versus `<image>-slim`), and nothing without an executable |
| DockerArgs.BuildArgs | Sources/swift-docker/SwiftDockerBuild.swift:191-198 | `docker build -f .build/Dockerfile`, then `-t <tag>` exactly when there is a tag, then `.`; length 5 or 7 |
| DockerArgs.BuildArgsRoundTrip | Sources/swift-docker/SwiftDockerBuild.swift:191-198 | the tag is read back from the build arguments |
| DockerArgs.PairFlags | Sources/swift-docker/SwiftDockerRun.swift:14-19 | one two-word pair per value, starting with the flag |
| DockerArgs.TakePairsOfPairFlags | Sources/swift-docker/SwiftDockerRun.swift:14-19 | the values of the pairs are read back in order, and what follows them is left untouched |
| DockerArgs.RunArgs | Sources/swift-docker/SwiftDockerRun.swift:12-25 | starts `docker run`, length 2 + 2·publish + 2·env + (rm ? 1 : 0) + 1, publish pairs first, env pairs after them, `--rm` just before the tag, the tag last |
| DockerArgs.RunArgsRoundTrip | Sources/swift-docker/SwiftDockerRun.swift:13-23 | the published ports, the environment, the `--rm` choice and the tag are all read back in order from the `docker run` arguments, whatever their text |
| DockerArgs.RunDockerArgs | Sources/swift-docker/SwiftDockerRun.swift:12-25 | the appending loops build the same vector as `RunArgs` |
| Pipeline.RunBuildOutcome | Sources/swift-docker/SwiftDockerBuild.swift:23-110 | at most five effects; it raises exactly when the set-up fails, and once set up it starts by ensuring `.build` and `.dockerignore` |
| Pipeline.Callback | Sources/swift-docker/SwiftDockerBuild.swift:34-107 | at most three effects; every error it meets is printed, and an error leaves at most the Dockerfile written |
| Pipeline.CallbackWritesThenExecutes | Sources/swift-docker/SwiftDockerBuild.swift:59-101 | the callback's first effect, if any, writes the Dockerfile to the path `--output` selects, and every later effect runs a command |
| Pipeline.BuildAndRun | Sources/swift-docker/SwiftDockerBuild.swift:94-101 | `docker build` first, then, only after status 0 and only for `run` with a tag, the post-build `docker run`; commands only |
| Pipeline.PostBuild | Sources/swift-docker/SwiftDocker.swift:105-111 | the post-build step runs `docker run` exactly for `run` with a tag, with that subcommand's ports, environment, `--rm` and the tag |
| Pipeline.OnlySetupErrorsPropagate | Sources/swift-docker/SwiftDockerBuild.swift:32-33 | `runBuild` throws exactly when creating `.build` or `.dockerignore` fails: with `failedToCreateFolder(".build")` and no effect, or with `failedToCreateFile(".dockerignore")` after `.build` was ensured |
| Pipeline.SetupComesFirst | Sources/swift-docker/SwiftDockerBuild.swift:112-135 | once set up, the run starts by ensuring `.build` and then `.dockerignore`, the latter created holding `.build` and `.git` when absent |
| Pipeline.LoadFailurePrinted | Sources/swift-docker/SwiftDockerBuild.swift:36-104 | a failed manifest load prints the loader's message and writes and runs nothing |
| Pipeline.WriteFailurePrinted | Sources/swift-docker/SwiftDockerBuild.swift:181-186 | a failed Dockerfile write prints `failedToCreateFile` with the path being written, and nothing is written or run |
| Pipeline.RunWithoutExecutable | Sources/swift-docker/SwiftDockerBuild.swift:65-69 | `run` without an executable prints `swift docker run requires an executable.` and writes and executes nothing |
| Pipeline.InvalidUserTagAfterWrite | Sources/swift-docker/SwiftDockerBuild.swift:69-79 | an illegal `--tag` is reported after the Dockerfile was written and no docker command runs |
| Pipeline.OutputNeverRunsDocker | Sources/swift-docker/SwiftDockerBuild.swift:94-101 | with `--output` nothing is executed and any Dockerfile written goes to `Dockerfile` |
| Pipeline.OutputWritesDockerfile | Sources/swift-docker/SwiftDockerBuild.swift:59-101 | with `--output` and the gates before the write passed, the run is exactly: ensure `.build`, ensure `.dockerignore`, write the rendering to `Dockerfile`; it ends without error exactly when the tag is accepted |
| Pipeline.DockerInvocations | Sources/swift-docker/SwiftDockerBuild.swift:94-101 | the Dockerfile is written to `.build/Dockerfile`, then `docker build` reads it from there, then `docker run` follows exactly for `run` with a tag after exit status 0 |
| Pipeline.DockerRunsOnlyAfterWriteAndTag | Sources/swift-docker/SwiftDockerBuild.swift:32-101 | docker is invoked only if `.build` and `.dockerignore` were ensured, the manifest loaded, `run` found an executable, the Dockerfile was written to the build folder and the tag was accepted |
| Pipeline.RunStartsUnlessNoTag | Sources/swift-docker/SwiftDocker.swift:106-110 | without `--tag`, `run` starts the image after a successful build exactly when the working directory is not all slashes |

## Left out

- Process launching, pipes and signal forwarding (`ShellCommand.swift`): the exit code of `docker build` is a parameter. The exit code of `docker run` is ignored by the tool and is not modelled.
- SwiftPM manifest loading (`SPMPackageLoader.swift`): the manifest is a parameter, products and targets as `(name, kind)` lists. A loader that throws before calling back is not modelled. A failed load is given as the message the callback prints.
- The `edit` subcommand (`SwiftDockerEdit.swift`) only writes the template to disk and opens an editor. The `edit` operation exists in `Commands.Operation`, but no subcommand in the model fixes it.
- User template overrides (`.swiftdocker-template`, `loadTemplate`): only the built-in template is rendered.
- The mustache engine is not modelled. Substitution is verbatim: any HTML escaping the engine applies to `{{image}}`, `{{options}}` or `{{executable}}` is not modelled.
- The Dockerfile is kept as lines. `Template.Text` joins them into the file contents, but no property is stated about that text.
- File-system effects are abstract. `.build` and `.dockerignore` are created only when absent. An `EnsureFile` effect says the file exists afterwards; its contents are what is written when the file was missing, and an existing `.dockerignore` is left as it is.
- `DispatchGroup` waiting and the asynchronous callback are flattened into one sequential function, and logging and `print` are left out.
- `main.swift` is a stale earlier entry point and is not part of this model. `Package.swift` is not part of this model.
- Tags.Lowercased: lower-cases ASCII only, because Swift's full Unicode case mapping and grapheme clustering are outside the model. A character is a Dafny `char`.
- DockerArgs.RunArgs: states the position of the first publish pair and of the first env pair rather than every pair's position. The pairs' contents and order are stated by `DockerArgs.RunArgsRoundTrip` instead.
