/** The JavaScript string operations the client code relies on:
    `startsWith`, `replace` with a string pattern, `join` and `split`. */
module Strings {
  import opened Common

  /** `s.startsWith(prefix)`. */
  predicate StartsWith(s: string, prefix: string)
  {
    |prefix| <= |s| && s[..|prefix|] == prefix
  }

  /** `s.indexOf(c)` for one character, as an option. */
  function IndexOf(s: string, c: char): (r: Option<nat>)
    ensures r.Some? ==> r.value < |s| && s[r.value] == c && c !in s[..r.value]
    ensures r.None? ==> c !in s
  {
    if s == [] then None
    else if s[0] == c then Some(0)
    else
      match IndexOf(s[1..], c)
      case None => None
      case Some(i) =>
        assert s[..i + 1] == [s[0]] + s[1..][..i];
        Some(i + 1)
  }

  /** `pattern` occurs in `s` at position `at`. */
  predicate OccursAt(s: string, pattern: string, at: nat)
  {
    at + |pattern| <= |s| && s[at..at + |pattern|] == pattern
  }

  /** The first position from `start` on at which `pattern` occurs. */
  function FindFrom(s: string, pattern: string, start: nat): (r: Option<nat>)
    requires start <= |s|
    ensures r.Some? ==> start <= r.value && OccursAt(s, pattern, r.value)
    ensures r.Some? ==> forall j :: start <= j < r.value ==> !OccursAt(s, pattern, j)
    ensures r.None? ==> forall j :: start <= j <= |s| ==> !OccursAt(s, pattern, j)
    decreases |s| - start
  {
    if OccursAt(s, pattern, start) then Some(start)
    else if start == |s| then None
    else FindFrom(s, pattern, start + 1)
  }

  /** `s.indexOf(pattern)`, as an option. */
  function FindFirst(s: string, pattern: string): Option<nat>
  {
    FindFrom(s, pattern, 0)
  }

  /** `s.replace(pattern, replacement)` with a string pattern: only the first
      occurrence is replaced. */
  function ReplaceFirst(s: string, pattern: string, replacement: string): (r: string)
  {
    match FindFirst(s, pattern)
    case None => s
    case Some(i) => s[..i] + replacement + s[i + |pattern|..]
  }

  /** Removing a prefix with `replace(prefix, "")` leaves the rest. */
  lemma ReplacePrefix(s: string, prefix: string)
    requires StartsWith(s, prefix)
    ensures ReplaceFirst(s, prefix, "") == s[|prefix|..]
  {
    assert OccursAt(s, prefix, 0);
    assert s[0..] == s;
  }

  /** `parts.join(separator)`. */
  function Join(parts: seq<string>, separator: string): (r: string)
    ensures parts == [] ==> r == ""
    ensures |parts| == 1 ==> r == parts[0]
  {
    if parts == [] then ""
    else if |parts| == 1 then parts[0]
    else parts[0] + separator + Join(parts[1..], separator)
  }

  /** `s.split(separator)` for one character: the pieces between the
      separators, always at least one. */
  function Split(s: string, separator: char): (r: seq<string>)
    ensures |r| >= 1
    decreases |s|
  {
    match IndexOf(s, separator)
    case None => [s]
    case Some(i) => [s[..i]] + Split(s[i + 1..], separator)
  }

  /** `split` undoes `join` when no part holds the separator. */
  lemma {:induction false} SplitJoin(parts: seq<string>, separator: char)
    requires |parts| >= 1
    requires forall i :: 0 <= i < |parts| ==> separator !in parts[i]
    ensures Split(Join(parts, [separator]), separator) == parts
  {
    if |parts| == 1 {
      assert IndexOf(parts[0], separator).None?;
    } else {
      var s := Join(parts, [separator]);
      var rest := Join(parts[1..], [separator]);
      assert s == parts[0] + [separator] + rest;
      IndexOfAfter(parts[0], separator, rest);
      assert s[..|parts[0]|] == parts[0];
      assert s[|parts[0]| + 1..] == rest;
      SplitJoin(parts[1..], separator);
      assert parts == [parts[0]] + parts[1..];
    }
  }

  /** The first separator is the one just after a part without one. */
  lemma IndexOfAfter(part: string, separator: char, rest: string)
    requires separator !in part
    ensures IndexOf(part + [separator] + rest, separator) == Some(|part|)
  {
    var s := part + [separator] + rest;
    assert s[|part|] == separator;
    assert forall j :: 0 <= j < |part| ==> s[j] == part[j];
  }
}
