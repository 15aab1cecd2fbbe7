/** The handful of JavaScript string operations the pipeline relies on. */
module Text {
  import opened Results

  /** The separator both `join` calls of the pipeline use. */
  const Separator := "\n\n---\n\n"

  function Min(a: int, b: int): int { if a <= b then a else b }
  function Max(a: int, b: int): int { if a >= b then a else b }

  /** `a || fallback` for an optional string: JavaScript keeps `a` only when
      it is present and not the empty string. */
  function OrElse(a: Option<string>, fallback: string): (r: string)
    ensures a.Some? && a.value != "" ==> r == a.value
    ensures a.None? || a.value == "" ==> r == fallback
  {
    if a.Some? && a.value != "" then a.value else fallback
  }

  /** `parts.join(sep)`: the parts in order with `sep` between neighbours;
      no parts give the empty string. */
  function Join(parts: seq<string>, sep: string): (r: string)
    ensures |parts| == 0 ==> r == ""
  {
    if |parts| == 0 then ""
    else if |parts| == 1 then parts[0]
    else parts[0] + sep + Join(parts[1..], sep)
  }

  /** A join of at least one part starts with the first part and ends with
      the last one. */
  lemma {:induction false} JoinEnds(parts: seq<string>, sep: string)
    requires |parts| > 0
    ensures parts[0] <= Join(parts, sep)
    ensures var r := Join(parts, sep); var last := parts[|parts| - 1];
      |last| <= |r| && r[|r| - |last|..] == last
  {
    if |parts| > 1 {
      var tail := parts[1..];
      var rest := Join(tail, sep);
      var r := Join(parts, sep);
      assert r == parts[0] + (sep + rest);
      assert r[..|parts[0]|] == parts[0];
      JoinEnds(tail, sep);
      assert tail[|tail| - 1] == parts[|parts| - 1];
      var last := parts[|parts| - 1];
      assert r[|r| - |rest|..] == rest;
      assert r[|r| - |last|..] == rest[|rest| - |last|..];
    }
  }

  /** `s.substring(0, end)`: the end index is clamped into `[0, |s|]`, so the
      result is always a prefix of `s`. */
  function Prefix(s: string, end: int): (r: string)
    ensures r <= s
    ensures |r| == Min(|s|, Max(0, end))
  {
    if end <= 0 then "" else if end >= |s| then s else s[..end]
  }

  /** `s.replaceAll(from, to)` for one-character patterns. */
  function ReplaceAll(s: string, from: char, to: char): (r: string)
    ensures |r| == |s|
    ensures forall i :: 0 <= i < |s| ==> r[i] == (if s[i] == from then to else s[i])
  {
    if |s| == 0 then ""
    else [if s[0] == from then to else s[0]] + ReplaceAll(s[1..], from, to)
  }

  /** After replacing every `from` by a different character, no `from` is left. */
  lemma ReplaceAllRemoves(s: string, from: char, to: char)
    requires from != to
    ensures from !in ReplaceAll(s, from, to)
  {
    var r := ReplaceAll(s, from, to);
    forall i | 0 <= i < |r| ensures r[i] != from {
    }
  }

  /** Replacing `from` by `to` is undone by replacing `to` by `from`, provided
      `to` did not occur in the original. */
  lemma ReplaceAllRoundTrip(s: string, from: char, to: char)
    requires to !in s
    ensures ReplaceAll(ReplaceAll(s, from, to), to, from) == s
  {
    var r := ReplaceAll(ReplaceAll(s, from, to), to, from);
    forall i | 0 <= i < |s| ensures r[i] == s[i] {
      assert s[i] != to;
    }
  }

  /** Joining a non-empty list of parts at least one of which is non-empty
      gives a non-empty string. */
  lemma {:induction false} JoinNonEmpty(parts: seq<string>, sep: string)
    requires exists i :: 0 <= i < |parts| && parts[i] != ""
    ensures Join(parts, sep) != ""
  {
    var i :| 0 <= i < |parts| && parts[i] != "";
    if |parts| == 1 {
    } else if i == 0 {
      assert |Join(parts, sep)| >= |parts[0]|;
    } else {
      assert parts[1..][i - 1] == parts[i];
      JoinNonEmpty(parts[1..], sep);
    }
  }
}
