/** The argument vectors handed to the `docker` command line: `docker build`
    after a successful render, and `docker run` after a successful build of
    the `run` subcommand. */
module DockerArgs {
  import opened Base

  /** The fixed head of every `docker build` invocation: the Dockerfile is
      always read from the build folder. */
  const BuildHead: seq<string> := ["docker", "build", "-f", ".build/Dockerfile"]

  /** `buildDocker(tag:)`: the fixed head, `-t <tag>` when there is a tag,
      and the build context `.` last. */
  function BuildArgs(tag: Option<string>): (argv: seq<string>)
    ensures |argv| == if tag.Some? then 7 else 5
    ensures argv[..4] == BuildHead && argv[|argv| - 1] == "."
    ensures tag.Some? ==> argv[4] == "-t" && argv[5] == tag.value
    ensures "-t" in argv[..|argv| - 1] <==> tag.Some?
  {
    BuildHead + (if tag.Some? then ["-t", tag.value] else []) + ["."]
  }

  /** Reads the tag back out of a `docker build` argument vector. */
  function ParseBuildArgs(argv: seq<string>): Option<Option<string>>
  {
    if |argv| == 5 && argv[..4] == BuildHead && argv[4] == "." then Some(None)
    else if |argv| == 7 && argv[..4] == BuildHead && argv[4] == "-t" && argv[6] == "." then Some(Some(argv[5]))
    else None
  }

  /** The tag given to `docker build` is recovered from its arguments. */
  lemma BuildArgsRoundTrip(tag: Option<string>)
    ensures ParseBuildArgs(BuildArgs(tag)) == Some(tag)
  {
  }

  /** `flag value` for every value, in order: the repeated `-p` and `-e`
      options. */
  function PairFlags(flag: string, values: seq<string>): (r: seq<string>)
    ensures |r| == 2 * |values|
    ensures |values| > 0 ==> r[0] == flag
  {
    if |values| == 0 then [] else [flag, values[0]] + PairFlags(flag, values[1..])
  }

  lemma {:induction false} PairFlagsSnoc(flag: string, values: seq<string>, v: string)
    ensures PairFlags(flag, values + [v]) == PairFlags(flag, values) + [flag, v]
  {
    if |values| == 0 {
      assert values + [v] == [v];
      assert [v][1..] == [];
    } else {
      assert (values + [v])[0] == values[0];
      assert (values + [v])[1..] == values[1..] + [v];
      PairFlagsSnoc(flag, values[1..], v);
    }
  }

  /** What `runDocker(tag:)` is asked to run. */
  datatype RunRequest = RunRequest(publish: seq<string>, env: seq<string>, removeOnExit: bool, tag: string)

  /** `runDocker(tag:)`: `docker run`, a `-p` pair per published port, an
      `-e` pair per environment variable, `--rm` when asked, and the image
      tag last. */
  function RunArgs(req: RunRequest): (argv: seq<string>)
    ensures |argv| == 2 + 2 * |req.publish| + 2 * |req.env| + (if req.removeOnExit then 1 else 0) + 1
    ensures argv[..2] == ["docker", "run"]
    ensures |req.publish| > 0 ==> argv[2] == "-p" && argv[3] == req.publish[0]
    ensures |req.env| > 0 ==> argv[2 + 2 * |req.publish|] == "-e"
    ensures req.removeOnExit ==> argv[|argv| - 2] == "--rm"
    ensures argv[|argv| - 1] == req.tag
  {
    var p := PairFlags("-p", req.publish);
    var e := PairFlags("-e", req.env);
    var withPorts := ["docker", "run"] + p;
    var withEnv := withPorts + e;
    var flags := withEnv + RemoveFlag(req.removeOnExit);
    var argv := flags + [req.tag];
    argv
  }

  /** `--rm` when the container is to be removed on exit. */
  function RemoveFlag(removeOnExit: bool): seq<string>
  {
    if removeOnExit then ["--rm"] else []
  }

  /** The loops of `runDocker(tag:)`, appending to the argument vector. */
  method RunDockerArgs(publish: seq<string>, env: seq<string>, removeOnExit: bool, tag: string)
    returns (args: seq<string>)
    ensures args == RunArgs(RunRequest(publish, env, removeOnExit, tag))
  {
    args := ["docker", "run"];
    var i := 0;
    while i < |publish|
      invariant 0 <= i <= |publish|
      invariant args == ["docker", "run"] + PairFlags("-p", publish[..i])
    {
      PairFlagsSnoc("-p", publish[..i], publish[i]);
      assert publish[..i + 1] == publish[..i] + [publish[i]];
      args := args + ["-p", publish[i]];
      i := i + 1;
    }
    assert publish[..i] == publish;
    var head := args;
    var j := 0;
    while j < |env|
      invariant 0 <= j <= |env|
      invariant args == head + PairFlags("-e", env[..j])
    {
      PairFlagsSnoc("-e", env[..j], env[j]);
      assert env[..j + 1] == env[..j] + [env[j]];
      args := args + ["-e", env[j]];
      j := j + 1;
    }
    assert env[..j] == env;
    if removeOnExit {
      args := args + ["--rm"];
    }
    args := args + [tag];
  }

  /** Consumes leading `flag value` pairs, stopping while at least one word
      (the tag) remains after them. */
  function TakePairs(flag: string, rest: seq<string>): (seq<string>, seq<string>)
  {
    if |rest| >= 3 && rest[0] == flag then
      var (values, remaining) := TakePairs(flag, rest[2..]);
      ([rest[1]] + values, remaining)
    else ([], rest)
  }

  lemma {:induction false} TakePairsOfPairFlags(flag: string, values: seq<string>, tail: seq<string>)
    requires |tail| >= 1 && (|tail| >= 3 ==> tail[0] != flag)
    ensures TakePairs(flag, PairFlags(flag, values) + tail) == (values, tail)
  {
    var rest := PairFlags(flag, values) + tail;
    if |values| == 0 {
      assert rest == tail;
    } else {
      assert rest == [flag, values[0]] + (PairFlags(flag, values[1..]) + tail);
      assert rest[2..] == PairFlags(flag, values[1..]) + tail;
      TakePairsOfPairFlags(flag, values[1..], tail);
      assert [values[0]] + values[1..] == values;
    }
  }

  /** Reads a `docker run` argument vector back into the request it stands for. */
  function ParseRunArgs(argv: seq<string>): Option<RunRequest>
  {
    if |argv| < 3 || argv[..2] != ["docker", "run"] then None
    else
      var (publish, afterPublish) := TakePairs("-p", argv[2..]);
      var (env, afterEnv) := TakePairs("-e", afterPublish);
      if |afterEnv| == 1 then Some(RunRequest(publish, env, false, afterEnv[0]))
      else if |afterEnv| == 2 && afterEnv[0] == "--rm" then Some(RunRequest(publish, env, true, afterEnv[1]))
      else None
  }

  lemma Reassociate(a: seq<string>, b: seq<string>, c: seq<string>, d: seq<string>, e: seq<string>)
    ensures a + b + c + d + e == a + (b + (c + (d + e)))
  {
  }

  /** Every published port, environment variable, the `--rm` choice and the
      tag survive the trip into `docker run`'s arguments, whatever strings
      they are. */
  lemma RunArgsRoundTrip(req: RunRequest)
    ensures ParseRunArgs(RunArgs(req)) == Some(req)
  {
    var p := PairFlags("-p", req.publish);
    var e := PairFlags("-e", req.env);
    var last := RemoveFlag(req.removeOnExit) + [req.tag];
    var head := ["docker", "run"];
    var argv := RunArgs(req);
    assert argv == head + p + e + RemoveFlag(req.removeOnExit) + [req.tag];
    Reassociate(head, p, e, RemoveFlag(req.removeOnExit), [req.tag]);
    assert argv[2..] == p + (e + last);
    if |req.env| > 0 {
      assert (e + last)[0] == "-e";
    } else {
      assert e + last == last;
    }
    TakePairsOfPairFlags("-p", req.publish, e + last);
    TakePairsOfPairFlags("-e", req.env, last);
    assert argv[..2] == head;
    ParseRunTail(req.publish, req.env, req.removeOnExit, req.tag);
  }

  /** What is left after the pairs is the optional `--rm` and the tag. */
  lemma ParseRunTail(publish: seq<string>, env: seq<string>, removeOnExit: bool, tag: string)
    ensures var last := RemoveFlag(removeOnExit) + [tag];
            (|last| == 1 && !removeOnExit && last[0] == tag)
            || (|last| == 2 && removeOnExit && last[0] == "--rm" && last[1] == tag)
  {
  }
}
