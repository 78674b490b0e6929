/** JavaScript's `String.prototype.split` with a one-character separator and
    `Array.prototype.join`, as the `/reminder` command uses them. */
module Text {

  /** `s.split(sep)`: the pieces between successive occurrences of `sep`,
      empty pieces included; the empty string yields `[""]`. */
  function Split(s: string, sep: char): (parts: seq<string>)
    ensures |parts| >= 1
    ensures forall i :: 0 <= i < |parts| ==> sep !in parts[i]
    decreases |s|
  {
    if |s| == 0 then [""]
    else
      var rest := Split(s[1..], sep);
      if s[0] == sep then [""] + rest
      else [[s[0]] + rest[0]] + rest[1..]
  }

  /** `parts.join(sep)`: the empty array yields "", otherwise the parts with
      `sep` between neighbours. */
  function Join(parts: seq<string>, sep: string): string
  {
    if |parts| == 0 then ""
    else if |parts| == 1 then parts[0]
    else parts[0] + sep + Join(parts[1..], sep)
  }

  /** Joining the pieces of a split with the same separator gives back the
      original string. */
  lemma {:induction false} JoinSplit(s: string, sep: char)
    ensures Join(Split(s, sep), [sep]) == s
    decreases |s|
  {
    if |s| > 0 {
      var rest := Split(s[1..], sep);
      JoinSplit(s[1..], sep);
      assert s == [s[0]] + s[1..];
      if s[0] != sep && |rest| > 1 {
        var parts := Split(s, sep);
        assert parts[1..] == rest[1..];
      }
    }
  }

  /** `const [head, ...tail] = s.split(sep)` followed by `tail.join(sep)`. */
  function SplitFirst(s: string, sep: char): (string, string)
  {
    var parts := Split(s, sep);
    (parts[0], Join(parts[1..], [sep]))
  }

  /** The head never holds the separator; when `s` holds one, head, separator
      and tail put back together give `s` (so the head is everything before
      the first separator), and otherwise the head is all of `s` and the tail
      is empty. */
  lemma SplitFirstSpec(s: string, sep: char)
    ensures sep !in SplitFirst(s, sep).0
    ensures sep in s ==> SplitFirst(s, sep).0 + [sep] + SplitFirst(s, sep).1 == s
    ensures sep !in s ==> SplitFirst(s, sep).0 == s && SplitFirst(s, sep).1 == ""
  {
    var parts := Split(s, sep);
    JoinSplit(s, sep);
    if |parts| > 1 {
      assert s == parts[0] + [sep] + Join(parts[1..], [sep]);
      assert s[|parts[0]|] == sep;
    }
  }

  /** `s` ends with `suffix`. */
  predicate EndsWith(s: string, suffix: string) {
    |suffix| <= |s| && s[|s| - |suffix|..] == suffix
  }

  /** Prepending keeps a suffix. */
  lemma EndsWithPrepend(prefix: string, s: string, suffix: string)
    requires EndsWith(s, suffix)
    ensures EndsWith(prefix + s, suffix)
  {
    assert (prefix + s)[|prefix + s| - |suffix|..] == s[|s| - |suffix|..];
  }

  /** The last part of a non-empty array is what its join ends with. */
  lemma {:induction false} JoinEndsWithLast(parts: seq<string>, sep: string)
    requires |parts| > 0
    ensures EndsWith(Join(parts, sep), parts[|parts| - 1])
    decreases |parts|
  {
    if |parts| > 1 {
      JoinEndsWithLast(parts[1..], sep);
      EndsWithPrepend(parts[0] + sep, Join(parts[1..], sep), parts[|parts| - 1]);
    }
  }
}
