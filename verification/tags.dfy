/** Image tags: strict validation of a tag given with `--tag`, and lenient
    derivation of one from the working directory's name. */
module Tags {
  import opened Base
  import opened Errors

  predicate IsAsciiLetter(c: char)
  {
    'a' <= c <= 'z' || 'A' <= c <= 'Z'
  }

  /** Membership in `validTagStartCharacter`: the 52 ASCII letters. */
  predicate IsTagStartCharacter(c: char)
  {
    IsAsciiLetter(c)
  }

  /** Membership in `validTagCharacters`: ASCII letters, digits, `-`, `_` and `.`. */
  predicate IsTagCharacter(c: char)
  {
    IsAsciiLetter(c) || '0' <= c <= '9' || c == '-' || c == '_' || c == '.'
  }

  /** Every character of `s` is a tag character. */
  predicate AllTagCharacters(s: string)
  {
    forall i :: 0 <= i < |s| ==> IsTagCharacter(s[i])
  }

  /** The rule a tag given on the command line must meet. */
  predicate IsValidUserTag(tag: string)
  {
    |tag| > 0 && IsTagStartCharacter(tag[0]) && AllTagCharacters(tag)
  }

  /** `tag.first(where: { !validTagCharacters.contains($0) })`, as a position. */
  function FirstInvalid(tag: string): (r: Option<nat>)
    ensures r.None? <==> AllTagCharacters(tag)
    ensures r.Some? ==> r.value < |tag| && !IsTagCharacter(tag[r.value])
                        && forall j :: 0 <= j < r.value ==> IsTagCharacter(tag[j])
  {
    if |tag| == 0 then None
    else if !IsTagCharacter(tag[0]) then Some(0)
    else match FirstInvalid(tag[1..])
      case None => None
      case Some(k) => Some(k + 1)
  }

  /** The guard on a user-supplied tag: accepted unchanged, or
      `invalidTagCharacters`. */
  function ValidateUserTag(tag: string): (r: Result<string, SwiftDockerError>)
    ensures r.Success? <==> IsValidUserTag(tag)
    ensures r.Success? ==> r.value == tag
    ensures r.Failure? ==> r.error == InvalidTagCharacters
  {
    if |tag| > 0 && IsTagStartCharacter(tag[0]) && FirstInvalid(tag).None? then Success(tag)
    else Failure(InvalidTagCharacters)
  }

  /** `Character.lowercased()` restricted to ASCII. */
  function LowerCharacter(c: char): char
  {
    if 'A' <= c <= 'Z' then (c as int + 32) as char else c
  }

  /** `String.lowercased()` restricted to ASCII. */
  function Lowercased(s: string): (r: string)
    ensures |r| == |s|
    ensures forall i :: 0 <= i < |s| ==> r[i] == LowerCharacter(s[i])
  {
    if |s| == 0 then "" else [LowerCharacter(s[0])] + Lowercased(s[1..])
  }

  /** The `compactMap` that drops every character outside `validTagCharacters`. */
  function Sanitize(s: string): (r: string)
    ensures |r| <= |s|
    ensures AllTagCharacters(r)
    ensures forall c :: c in r <==> c in s && IsTagCharacter(c)
  {
    if |s| == 0 then ""
    else
      var rest := Sanitize(s[1..]);
      assert forall c :: c in s <==> c == s[0] || c in s[1..];
      if IsTagCharacter(s[0]) then [s[0]] + rest else rest
  }

  /** Sanitising distributes over concatenation: it keeps the valid characters
      in their original order. */
  lemma {:induction false} SanitizeConcat(a: string, b: string)
    ensures Sanitize(a + b) == Sanitize(a) + Sanitize(b)
  {
    if |a| == 0 {
      assert a + b == b;
    } else {
      assert (a + b)[0] == a[0];
      assert (a + b)[1..] == a[1..] + b;
      SanitizeConcat(a[1..], b);
    }
  }

  /** Sanitising leaves a string unchanged exactly when it already consists of
      tag characters. */
  lemma {:induction false} SanitizeFixedPoints(s: string)
    ensures Sanitize(s) == s <==> AllTagCharacters(s)
  {
    if |s| > 0 {
      SanitizeFixedPoints(s[1..]);
      if !IsTagCharacter(s[0]) {
        assert |Sanitize(s)| < |s|;
      }
    }
  }

  /** Re-applying the sanitiser to a derived tag changes nothing. */
  lemma SanitizeIdempotent(s: string)
    ensures Sanitize(Sanitize(s)) == Sanitize(s)
  {
    SanitizeFixedPoints(Sanitize(s));
  }

  /** The tag derived from the working directory path `cwd`: its last
      non-empty `/`-separated component, lower-cased, with every character
      outside `validTagCharacters` removed. Its first character is not checked. */
  function DeriveTag(cwd: string): (tag: Option<string>)
    ensures tag.Some? ==> AllTagCharacters(tag.value)
    ensures tag.Some? ==> forall i :: 0 <= i < |tag.value| ==> !('A' <= tag.value[i] <= 'Z')
  {
    var path := Split(cwd, '/');
    if |path| == 0 then None
    else Some(Sanitize(Lowercased(path[|path| - 1])))
  }

  /** The derived tag comes from the component read from the right end of the
      path, so trailing slashes do not matter. */
  lemma DeriveTagUsesLastComponent(cwd: string)
    ensures DeriveTag(cwd) == match LastComponent(cwd, '/')
                              case None => None
                              case Some(c) => Some(Sanitize(Lowercased(c)))
  {
    LastComponentIsLastOfSplit(cwd, '/');
  }

  /** No tag can be derived exactly when the path is made of slashes only
      (the empty path and `/` included). */
  lemma DeriveTagNoneIffOnlySlashes(cwd: string)
    ensures DeriveTag(cwd).None? <==> forall i :: 0 <= i < |cwd| ==> cwd[i] == '/'
  {
    NoComponentIffOnlySeparators(cwd, '/');
  }

  /** The tag derived inside a directory `name` is that name, lower-cased and
      filtered, whatever the path above it. */
  lemma DeriveTagOfChild(parent: string, name: string)
    requires |name| > 0 && '/' !in name
    ensures DeriveTag(parent + "/" + name) == Some(Sanitize(Lowercased(name)))
  {
    assert parent + "/" + name == parent + ['/'] + name;
    SplitConcat(parent, name, '/');
    SplitFromNoSeparator(name, '/', "");
    assert "" + name == name;
    assert Split(name, '/') == [name];
  }

  /** A derived tag need not meet the rule for user tags: a directory whose
      name starts with a digit yields a tag that `--tag` would refuse. */
  lemma DerivedTagMayStartWithDigit()
    ensures DeriveTag("/work/1App") == Some("1app")
    ensures ValidateUserTag("1app").Failure?
  {
    var name := "1App";
    assert "/work/1App" == "/work" + "/" + name;
    DeriveTagOfChild("/work", name);
    assert Lowercased(name) == "1app";
    SanitizeFixedPoints("1app");
  }

  /** Nor is a derived tag checked for being non-empty: a directory whose
      name has no tag character at all yields the empty tag. */
  lemma DerivedTagMayBeEmpty()
    ensures DeriveTag("/work/@@") == Some("")
  {
    var name := "@@";
    assert "/work/@@" == "/work" + "/" + name;
    DeriveTagOfChild("/work", name);
    assert Lowercased(name) == name;
  }

  /** The tag the pipeline applies: a `--tag` value is validated strictly and
      used unchanged; otherwise one is derived from `cwd`, but only when an
      executable was resolved. */
  function SelectTag(userTag: Option<string>, executable: Option<string>, cwd: string)
    : (r: Result<Option<string>, SwiftDockerError>)
    ensures r.Failure? <==> userTag.Some? && !IsValidUserTag(userTag.value)
    ensures r.Failure? ==> r.error == InvalidTagCharacters
    ensures userTag.Some? && r.Success? ==> r.value == userTag
    ensures userTag.None? && executable.None? ==> r == Success(None)
    ensures userTag.None? && executable.Some? ==>
              r.Success? && (r.value.None? <==> forall i :: 0 <= i < |cwd| ==> cwd[i] == '/')
    ensures userTag.None? && executable.Some? ==> r == Success(DeriveTag(cwd))
    ensures userTag.None? && r.Success? && r.value.Some? ==> AllTagCharacters(r.value.value)
  {
    DeriveTagNoneIffOnlySlashes(cwd);
    match userTag
    case Some(t) =>
      (match ValidateUserTag(t)
       case Success(v) => Success(Some(v))
       case Failure(e) => Failure(e))
    case None =>
      if executable.Some? then Success(DeriveTag(cwd)) else Success(None)
  }
}
