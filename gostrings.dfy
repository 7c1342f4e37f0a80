/**
  The parts of Go's `strings` package that the request router and the handlers
  use on a URL path: `HasPrefix`, `HasSuffix`, `TrimPrefix` and `Split`.
  `Join` is the inverse of `Split`; the two round trips are proved below.
*/
module GoStrings {

  /** `strings.HasPrefix(s, prefix)`: `s` begins with every character of `prefix`, in order. */
  predicate HasPrefix(s: string, prefix: string): (b: bool)
    ensures b <==> |prefix| <= |s| && forall i :: 0 <= i < |prefix| ==> s[i] == prefix[i]
  {
    |prefix| <= |s| && s[..|prefix|] == prefix
  }

  /** `strings.HasSuffix(s, suffix)`: `s` ends with every character of `suffix`, in order. */
  predicate HasSuffix(s: string, suffix: string): (b: bool)
    ensures b <==> |suffix| <= |s| && forall i :: 0 <= i < |suffix| ==> s[|s| - |suffix| + i] == suffix[i]
  {
    |suffix| <= |s| && s[|s| - |suffix|..] == suffix
  }

  /** `strings.TrimPrefix(s, prefix)`: `s` without a leading `prefix`, or `s` itself. */
  function TrimPrefix(s: string, prefix: string): (r: string)
    ensures HasPrefix(s, prefix) ==> prefix + r == s
    ensures !HasPrefix(s, prefix) ==> r == s
  {
    if HasPrefix(s, prefix) then s[|prefix|..] else s
  }

  /**
    `strings.Split(s, [sep])`: the pieces of `s` between occurrences of `sep`.
    There is always at least one piece (`Split("", sep)` is `[""]`), and no
    piece contains the separator.
  */
  function Split(s: string, sep: char): (parts: seq<string>)
    ensures |parts| >= 1
    ensures forall i :: 0 <= i < |parts| ==> sep !in parts[i]
    decreases |s|
  {
    if |s| == 0 then [""]
    else
      var rest := Split(s[1..], sep);
      if s[0] == sep then [""] + rest
      else [[s[0]] + rest[0]] + rest[1..]
  }

  /** `strings.Join(parts, [sep])` for a non-empty list of pieces. */
  function Join(parts: seq<string>, sep: char): string
    requires |parts| >= 1
  {
    if |parts| == 1 then parts[0] else parts[0] + [sep] + Join(parts[1..], sep)
  }

  /** Splitting loses nothing: joining the pieces gives the string back. */
  lemma {:induction false} JoinSplit(s: string, sep: char)
    ensures Join(Split(s, sep), sep) == s
    decreases |s|
  {
    if |s| > 0 {
      var rest := Split(s[1..], sep);
      JoinSplit(s[1..], sep);
      if s[0] == sep {
        calc {
          Join(Split(s, sep), sep);
          Join([""] + rest, sep);
          { assert ([""] + rest)[1..] == rest; }
          [sep] + Join(rest, sep);
          s;
        }
      } else if |rest| == 1 {
        calc {
          Join(Split(s, sep), sep);
          [s[0]] + rest[0];
          [s[0]] + Join(rest, sep);
          s;
        }
      } else {
        var parts := [[s[0]] + rest[0]] + rest[1..];
        assert parts[1..] == rest[1..];
        calc {
          Join(parts, sep);
          [s[0]] + rest[0] + [sep] + Join(rest[1..], sep);
          [s[0]] + (rest[0] + [sep] + Join(rest[1..], sep));
          [s[0]] + Join(rest, sep);
          s;
        }
      }
    }
  }

  /** A string without the separator is a single piece. */
  lemma {:induction false} SplitWithoutSeparator(s: string, sep: char)
    requires sep !in s
    ensures Split(s, sep) == [s]
    decreases |s|
  {
    if |s| > 0 {
      SplitWithoutSeparator(s[1..], sep);
      assert [s[0]] + s[1..] == s;
    }
  }

  /** The first piece ends at the first separator; the rest is split on its own. */
  lemma {:induction false} SplitAtFirstSeparator(head: string, sep: char, tail: string)
    requires sep !in head
    ensures Split(head + [sep] + tail, sep) == [head] + Split(tail, sep)
    decreases |head|
  {
    var s := head + [sep] + tail;
    if |head| == 0 {
      assert s[1..] == tail;
    } else {
      assert s[1..] == head[1..] + [sep] + tail;
      SplitAtFirstSeparator(head[1..], sep, tail);
      assert [head[0]] + head[1..] == head;
    }
  }

  /** Joining pieces that do not contain the separator and splitting again gives the pieces back. */
  lemma {:induction false} SplitJoin(parts: seq<string>, sep: char)
    requires |parts| >= 1
    requires forall i :: 0 <= i < |parts| ==> sep !in parts[i]
    ensures Split(Join(parts, sep), sep) == parts
    decreases |parts|
  {
    if |parts| == 1 {
      SplitWithoutSeparator(parts[0], sep);
    } else {
      SplitJoin(parts[1..], sep);
      SplitAtFirstSeparator(parts[0], sep, Join(parts[1..], sep));
      assert [parts[0]] + parts[1..] == parts;
    }
  }

  /**
    The first two pieces of a split, read back from the string: a string whose
    first two pieces are `head` and `word` is `head`, the separator, `word`, and
    then either nothing or the separator and the rest.
  */
  lemma {:induction false} SplitFirstTwo(s: string, sep: char)
    requires |Split(s, sep)| >= 2
    ensures var parts := Split(s, sep);
            var n := |parts[0]| + 1 + |parts[1]|;
            n <= |s| && s[..n] == parts[0] + [sep] + parts[1] && (n == |s| || s[n] == sep)
  {
    var parts := Split(s, sep);
    JoinSplit(s, sep);
    var more: string := if |parts| == 2 then [] else [sep] + Join(parts[2..], sep);
    assert Join(parts[1..], sep) == parts[1] + more by {
      if |parts| > 2 {
        assert parts[1..][1..] == parts[2..];
      }
    }
    assert s == parts[0] + [sep] + parts[1] + more;
  }

  /** Conversely, such a string splits into `head` and `word` first. */
  lemma SplitIntoFirstTwo(head: string, word: string, tail: string, sep: char)
    requires sep !in head && sep !in word
    requires tail == [] || tail[0] == sep
    ensures var parts := Split(head + [sep] + word + tail, sep);
            |parts| >= 2 && parts[0] == head && parts[1] == word
  {
    assert head + [sep] + word + tail == head + [sep] + (word + tail);
    SplitAtFirstSeparator(head, sep, word + tail);
    if tail == [] {
      assert word + tail == word;
      SplitWithoutSeparator(word, sep);
    } else {
      assert word + tail == word + [sep] + tail[1..];
      SplitAtFirstSeparator(word, sep, tail[1..]);
    }
  }
}
