/** The render context handed to the Dockerfile template, and the file the
    rendered text is written to. */
module Contexts {
  import opened Base
  import opened Commands

  /** The keys of the template context: `image`, `operation`, `options`,
      `noSlim`, and the optional `configuration` and `executable`. */
  datatype RenderContext = RenderContext(
    image: string,
    operation: Operation,
    options: string,
    configuration: Option<Configuration>,
    executable: Option<string>,
    noSlim: bool)

  /** The `options` string, built as `renderDockerfile` builds it: the
      pass-through arguments joined by spaces, then the product or target
      selection prepended, then the configuration prepended. */
  function OptionsString(o: BuildOptions): string
  {
    WithConfiguration(o.configuration, WithSelection(o.product, o.target, Join(o.swiftOptions, ' ')))
  }

  /** Prepends `--product <p> `, or failing that `--target <t> `. */
  function WithSelection(product: Option<string>, target: Option<string>, options: string): string
  {
    if product.Some? then "--product " + product.value + " " + options
    else if target.Some? then "--target " + target.value + " " + options
    else options
  }

  /** Prepends `-c <configuration> `. */
  function WithConfiguration(configuration: Option<Configuration>, options: string): string
  {
    if configuration.Some? then "-c " + ConfigurationName(configuration.value) + " " + options
    else options
  }

  /** The configuration flag, when one is set. */
  function ConfigurationWords(o: BuildOptions): seq<string>
  {
    if o.configuration.Some? then ["-c", ConfigurationName(o.configuration.value)] else []
  }

  /** The product selection, or failing that the target selection. */
  function SelectionWords(o: BuildOptions): seq<string>
  {
    if o.product.Some? then ["--product", o.product.value]
    else if o.target.Some? then ["--target", o.target.value]
    else []
  }

  /** The flags placed ahead of the pass-through arguments, in order. */
  function PrefixWords(o: BuildOptions): seq<string>
  {
    ConfigurationWords(o) + SelectionWords(o)
  }

  /** The words the options string stands for. */
  function OptionWords(o: BuildOptions): seq<string>
  {
    PrefixWords(o) + o.swiftOptions
  }

  /** Each word followed by one space. */
  function Spaced(words: seq<string>): string
  {
    if |words| == 0 then "" else words[0] + " " + Spaced(words[1..])
  }

  lemma {:induction false} SpacedConcat(a: seq<string>, b: seq<string>)
    ensures Spaced(a + b) == Spaced(a) + Spaced(b)
  {
    if |a| > 0 {
      assert (a + b)[1..] == a[1..] + b;
      SpacedConcat(a[1..], b);
    } else {
      assert a + b == b;
    }
  }

  lemma SpacedPair(a: string, b: string)
    ensures Spaced([a, b]) == a + " " + b + " "
  {
    assert [a, b][1..] == [b];
    assert [b][1..] == [];
    assert Spaced([b]) == b + " " + "";
    assert b + " " + "" == b + " ";
  }

  /** `flag + " " + value + " "` put in front of `rest` spells the pair of words. */
  lemma FlagPair(flag: string, value: string, rest: string)
    ensures flag + " " + value + " " + rest == Spaced([flag, value]) + rest
  {
    SpacedPair(flag, value);
  }

  /** `joined(separator: " ")` puts exactly one space between neighbouring
      words: followed by one more space it is every word followed by one
      space. */
  lemma {:induction false} JoinThenSpace(words: seq<string>)
    requires |words| > 0
    ensures Join(words, ' ') + " " == Spaced(words)
  {
    if |words| == 1 {
      assert words[1..] == [];
      assert Spaced(words) == words[0] + " " + "";
    } else {
      JoinThenSpace(words[1..]);
      assert Join(words, ' ') + " " == words[0] + " " + (Join(words[1..], ' ') + " ");
    }
  }

  lemma SelectionLayout(o: BuildOptions, options: string)
    ensures WithSelection(o.product, o.target, options) == Spaced(SelectionWords(o)) + options
  {
    if o.product.Some? {
      assert "--product " == "--product" + " ";
      FlagPair("--product", o.product.value, options);
    } else if o.target.Some? {
      assert "--target " == "--target" + " ";
      FlagPair("--target", o.target.value, options);
    }
  }

  lemma ConfigurationLayout(o: BuildOptions, options: string)
    ensures WithConfiguration(o.configuration, options) == Spaced(ConfigurationWords(o)) + options
  {
    if o.configuration.Some? {
      assert "-c " == "-c" + " ";
      FlagPair("-c", ConfigurationName(o.configuration.value), options);
    }
  }

  lemma AppendAssociates(a: string, b: string, c: string)
    ensures a + (b + c) == (a + b) + c
  {
  }

  /** The options string is every prefix flag followed by a space, then the
      pass-through arguments joined by single spaces. */
  lemma OptionsStringLayout(o: BuildOptions)
    ensures OptionsString(o) == Spaced(PrefixWords(o)) + Join(o.swiftOptions, ' ')
  {
    var joined := Join(o.swiftOptions, ' ');
    var cw, sw := Spaced(ConfigurationWords(o)), Spaced(SelectionWords(o));
    var ws := WithSelection(o.product, o.target, joined);
    SelectionLayout(o, joined);
    assert ws == sw + joined;
    ConfigurationLayout(o, ws);
    assert OptionsString(o) == WithConfiguration(o.configuration, ws);
    SpacedConcat(ConfigurationWords(o), SelectionWords(o));
    assert Spaced(PrefixWords(o)) == cw + sw;
    AppendAssociates(cw, sw, joined);
  }

  /** Splitting `w + " " + rest` at spaces yields `w` and then the words of `rest`. */
  lemma SplitWord(w: string, rest: string)
    requires |w| > 0 && ' ' !in w
    ensures Split(w + " " + rest, ' ') == [w] + Split(rest, ' ')
  {
    assert w + " " + rest == w + [' '] + rest;
    SplitConcat(w, rest, ' ');
    SplitFromNoSeparator(w, ' ', "");
    assert "" + w == w;
  }

  lemma {:induction false} SplitSpaced(words: seq<string>, rest: string)
    requires forall i :: 0 <= i < |words| ==> |words[i]| > 0 && ' ' !in words[i]
    ensures Split(Spaced(words) + rest, ' ') == words + Split(rest, ' ')
  {
    if |words| == 0 {
      assert Spaced(words) + rest == rest;
    } else {
      assert Spaced(words) + rest == words[0] + " " + (Spaced(words[1..]) + rest);
      SplitWord(words[0], Spaced(words[1..]) + rest);
      SplitSpaced(words[1..], rest);
      assert words == [words[0]] + words[1..];
    }
  }

  /** When no word contains a space, splitting the options string of the
      rendered `RUN swift … <options>` line at spaces recovers exactly the
      flags and arguments the user gave, in order. */
  lemma OptionsStringWords(o: BuildOptions)
    requires forall i :: 0 <= i < |OptionWords(o)| ==> |OptionWords(o)[i]| > 0 && ' ' !in OptionWords(o)[i]
    ensures Split(OptionsString(o), ' ') == OptionWords(o)
  {
    var pre := PrefixWords(o);
    OptionsStringLayout(o);
    assert forall i :: 0 <= i < |pre| ==> pre[i] == OptionWords(o)[i];
    assert forall i :: 0 <= i < |o.swiftOptions| ==> o.swiftOptions[i] == OptionWords(o)[|pre| + i];
    SplitSpaced(pre, Join(o.swiftOptions, ' '));
    SplitJoin(o.swiftOptions, ' ');
  }

  /** The operation the build stage runs: `run` builds the executable with
      `swift build`; every other operation is used as it is. */
  function StageOperation(op: Operation): (stage: Operation)
    ensures stage != Run
    ensures op != Run ==> stage == op
    ensures op == Run ==> stage == Build
  {
    if op == Run then Build else op
  }

  /** The context `renderDockerfile` builds for operation `op` and the
      resolved `executable`. */
  function MakeContext(o: BuildOptions, op: Operation, executable: Option<string>): (ctx: RenderContext)
    ensures ctx.operation == StageOperation(op)
    ensures ctx.options == OptionsString(o)
    ensures ctx.image == o.image && ctx.noSlim == o.noSlim
    ensures ctx.configuration == o.configuration && ctx.executable == executable
  {
    RenderContext(o.image, StageOperation(op), OptionsString(o), o.configuration, executable, o.noSlim)
  }

  /** Where the rendered Dockerfile goes: the project root with `--output`,
      the build folder otherwise. */
  function DockerfilePath(output: bool): (path: string)
    ensures output <==> path == "Dockerfile"
    ensures !output <==> path == ".build/Dockerfile"
  {
    if output then "Dockerfile" else ".build/Dockerfile"
  }
}
