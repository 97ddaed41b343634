/** Small shared vocabulary: optional values, results, and the two string
    operations the tool borrows from the Swift standard library
    (`joined(separator:)` and `split(separator:)`). */
module Base {

  /** Swift's `T?`. */
  datatype Option<+T> = None | Some(value: T)

  /** A value or the error a Swift `throws` would raise. */
  datatype Result<+R, +E> = Success(value: R) | Failure(error: E)

  /** Swift's `[String].joined(separator:)` for a one-character separator. */
  function Join(parts: seq<string>, sep: char): string
  {
    if |parts| == 0 then ""
    else if |parts| == 1 then parts[0]
    else parts[0] + [sep] + Join(parts[1..], sep)
  }

  /** The pieces collected so far become a component only when non-empty:
      Swift's `split` omits empty subsequences by default. */
  function Flush(current: string): seq<string>
  {
    if |current| == 0 then [] else [current]
  }

  /** Left-to-right scan of `s`, `current` being the component being read. */
  function SplitFrom(s: string, sep: char, current: string): (parts: seq<string>)
    requires sep !in current
    ensures forall i :: 0 <= i < |parts| ==> |parts[i]| > 0 && sep !in parts[i]
    decreases |s|
  {
    if |s| == 0 then Flush(current)
    else if s[0] == sep then Flush(current) + SplitFrom(s[1..], sep, "")
    else SplitFrom(s[1..], sep, current + [s[0]])
  }

  /** Swift's `s.split(separator: sep)`: the maximal runs of non-separator
      characters, in order, with empty runs dropped. */
  function Split(s: string, sep: char): (parts: seq<string>)
    ensures forall i :: 0 <= i < |parts| ==> |parts[i]| > 0 && sep !in parts[i]
  {
    SplitFrom(s, sep, "")
  }

  lemma {:induction false} SplitFromConcat(a: string, b: string, sep: char, current: string)
    requires sep !in current
    ensures SplitFrom(a + [sep] + b, sep, current) == SplitFrom(a, sep, current) + SplitFrom(b, sep, "")
    decreases |a|
  {
    if |a| == 0 {
      assert a + [sep] + b == [sep] + b;
      assert ([sep] + b)[1..] == b;
    } else {
      assert (a + [sep] + b)[0] == a[0];
      assert (a + [sep] + b)[1..] == a[1..] + [sep] + b;
      if a[0] == sep {
        SplitFromConcat(a[1..], b, sep, "");
      } else {
        SplitFromConcat(a[1..], b, sep, current + [a[0]]);
      }
    }
  }

  lemma {:induction false} SplitFromNoSeparator(s: string, sep: char, current: string)
    requires sep !in current && sep !in s
    ensures SplitFrom(s, sep, current) == Flush(current + s)
    decreases |s|
  {
    if |s| == 0 {
      assert current + s == current;
    } else {
      assert s[0] in s;
      assert (current + [s[0]]) + s[1..] == current + s;
      SplitFromNoSeparator(s[1..], sep, current + [s[0]]);
    }
  }

  /** A separator in the middle splits the string into the two halves' components. */
  lemma SplitConcat(a: string, b: string, sep: char)
    ensures Split(a + [sep] + b, sep) == Split(a, sep) + Split(b, sep)
  {
    SplitFromConcat(a, b, sep, "");
  }

  /** Joining non-empty, separator-free words and splitting the result gives
      the words back. */
  lemma {:induction false} SplitJoin(parts: seq<string>, sep: char)
    requires forall i :: 0 <= i < |parts| ==> |parts[i]| > 0 && sep !in parts[i]
    ensures Split(Join(parts, sep), sep) == parts
  {
    if |parts| == 0 {
    } else if |parts| == 1 {
      SplitFromNoSeparator(parts[0], sep, "");
      assert "" + parts[0] == parts[0];
    } else {
      SplitConcat(parts[0], Join(parts[1..], sep), sep);
      SplitFromNoSeparator(parts[0], sep, "");
      assert "" + parts[0] == parts[0];
      SplitJoin(parts[1..], sep);
      assert parts == [parts[0]] + parts[1..];
    }
  }

  /** `s` without its trailing separators. */
  function TrimTrailing(s: string, sep: char): (t: string)
    ensures |t| <= |s| && t == s[..|t|]
    ensures forall i :: |t| <= i < |s| ==> s[i] == sep
    ensures |t| > 0 ==> t[|t| - 1] != sep
  {
    if |s| == 0 then s
    else if s[|s| - 1] == sep then TrimTrailing(s[..|s| - 1], sep)
    else s
  }

  /** Where the characters after the last separator of `s` start (0 when
      `s` has no separator). */
  function AfterLastStart(s: string, sep: char): (k: nat)
    ensures k <= |s|
    ensures forall i :: k <= i < |s| ==> s[i] != sep
    ensures k > 0 ==> s[k - 1] == sep
  {
    if |s| == 0 then 0
    else if s[|s| - 1] == sep then |s|
    else AfterLastStart(s[..|s| - 1], sep)
  }

  /** The characters after the last separator of `s` (all of `s` when it has none). */
  function AfterLast(s: string, sep: char): (c: string)
    ensures sep !in c
  {
    var k := AfterLastStart(s, sep);
    assert forall i :: 0 <= i < |s| - k ==> s[k..][i] == s[k + i];
    s[k..]
  }

  /** The last path component read from the right: strip trailing separators,
      then keep what follows the last remaining separator. */
  function LastComponent(s: string, sep: char): Option<string>
  {
    var t := TrimTrailing(s, sep);
    if |t| == 0 then None else Some(AfterLast(t, sep))
  }

  lemma {:induction false} SplitDropsTrailingSeparators(s: string, sep: char)
    ensures Split(s, sep) == Split(TrimTrailing(s, sep), sep)
    decreases |s|
  {
    if |s| > 0 && s[|s| - 1] == sep {
      var p := s[..|s| - 1];
      assert s == p + [sep] + "";
      SplitConcat(p, "", sep);
      assert Split(s, sep) == Split(p, sep);
      SplitDropsTrailingSeparators(p, sep);
    }
  }

  /** A string that does not end with a separator splits into components
      whose last one is what follows its last separator. */
  lemma SplitEndsWithAfterLast(t: string, sep: char)
    requires |t| > 0 && t[|t| - 1] != sep
    ensures |Split(t, sep)| > 0 && Split(t, sep)[|Split(t, sep)| - 1] == AfterLast(t, sep)
  {
    var k := AfterLastStart(t, sep);
    var c := AfterLast(t, sep);
    assert c == t[k..] && |c| > 0;
    SplitFromNoSeparator(c, sep, "");
    assert "" + c == c;
    assert Split(c, sep) == [c];
    if k == 0 {
      assert t == c;
    } else {
      var pre := t[..k - 1];
      assert t == pre + [sep] + c;
      SplitConcat(pre, c, sep);
      assert Split(t, sep) == Split(pre, sep) + [c];
    }
  }

  /** The component Swift's `split(separator:).last` yields is the one read
      from the right by `LastComponent`. */
  lemma LastComponentIsLastOfSplit(s: string, sep: char)
    ensures var parts := Split(s, sep);
            LastComponent(s, sep) == if |parts| == 0 then None else Some(parts[|parts| - 1])
  {
    var t := TrimTrailing(s, sep);
    SplitDropsTrailingSeparators(s, sep);
    if |t| > 0 {
      SplitEndsWithAfterLast(t, sep);
    }
  }

  /** A path yields no component exactly when it consists of separators only. */
  lemma NoComponentIffOnlySeparators(s: string, sep: char)
    ensures Split(s, sep) == [] <==> forall i :: 0 <= i < |s| ==> s[i] == sep
  {
    LastComponentIsLastOfSplit(s, sep);
    var t := TrimTrailing(s, sep);
    if |t| > 0 {
      assert s[|t| - 1] != sep;
    }
  }
}
