/**
 * The handful of Python string operations the backup scripts rely on:
 * `str.strip()`, `str.split(sep)` with a one-character separator, and the
 * substring test `sub in s`.
 */
module Text {

  /** Python's `str.isspace()` for one character: the characters `str.strip()` removes. */
  predicate IsSpace(c: char) {
    || c == ' ' || c == '\t' || c == '\n' || c == '\r'
    || c == '\U{000B}' || c == '\U{000C}'
    || ('\U{001C}' <= c <= '\U{001F}')
    || c == '\U{0085}' || c == '\U{00A0}' || c == '\U{1680}'
    || ('\U{2000}' <= c <= '\U{200A}')
    || c == '\U{2028}' || c == '\U{2029}' || c == '\U{202F}' || c == '\U{205F}' || c == '\U{3000}'
  }

  /** Number of whitespace characters at the start of `s`. */
  function LeadingSpaces(s: string): (k: nat)
    ensures k <= |s|
  {
    if s == [] || !IsSpace(s[0]) then 0 else 1 + LeadingSpaces(s[1..])
  }

  /** `LeadingSpaces` counts the whole whitespace run at the start and stops at the first other character. */
  lemma {:induction false} LeadingSpacesSpec(s: string)
    ensures forall i | 0 <= i < LeadingSpaces(s) :: IsSpace(s[i])
    ensures LeadingSpaces(s) < |s| ==> !IsSpace(s[LeadingSpaces(s)])
  {
    if s != [] && IsSpace(s[0]) {
      LeadingSpacesSpec(s[1..]);
      forall i | 1 <= i < LeadingSpaces(s) ensures IsSpace(s[i]) {
        assert s[i] == s[1..][i - 1];
      }
    }
  }

  /** Number of whitespace characters at the end of `s`. */
  function TrailingSpaces(s: string): (k: nat)
    ensures k <= |s|
  {
    if s == [] || !IsSpace(s[|s| - 1]) then 0 else 1 + TrailingSpaces(s[..|s| - 1])
  }

  /** `TrailingSpaces` counts the whole whitespace run at the end and stops at the last other character. */
  lemma {:induction false} TrailingSpacesSpec(s: string)
    ensures forall i | |s| - TrailingSpaces(s) <= i < |s| :: IsSpace(s[i])
    ensures TrailingSpaces(s) < |s| ==> !IsSpace(s[|s| - 1 - TrailingSpaces(s)])
  {
    if s != [] && IsSpace(s[|s| - 1]) {
      var u := s[..|s| - 1];
      TrailingSpacesSpec(u);
      forall i | |s| - TrailingSpaces(s) <= i < |s| - 1 ensures IsSpace(s[i]) {
        assert s[i] == u[i];
      }
    }
  }

  /** `s.strip()`: `s` without its leading and trailing whitespace. */
  function Strip(s: string): string
  {
    var t := s[LeadingSpaces(s)..];
    t[..|t| - TrailingSpaces(t)]
  }

  /** `Strip` removes only whitespace, and what it keeps neither starts nor ends with whitespace. */
  lemma StripSpec(s: string)
    ensures exists i, j | 0 <= i <= j <= |s| ::
              && Strip(s) == s[i..j]
              && (forall k | 0 <= k < i :: IsSpace(s[k]))
              && (forall k | j <= k < |s| :: IsSpace(s[k]))
    ensures Strip(s) != [] ==> !IsSpace(Strip(s)[0]) && !IsSpace(Strip(s)[|Strip(s)| - 1])
  {
    var i := LeadingSpaces(s);
    var t := s[i..];
    LeadingSpacesSpec(s);
    TrailingSpacesSpec(t);
    var j := i + |t| - TrailingSpaces(t);
    assert Strip(s) == s[i..j];
    forall k | j <= k < |s| ensures IsSpace(s[k]) {
      assert s[k] == t[k - i];
    }
    if Strip(s) != [] {
      assert Strip(s)[0] == s[i];
      assert Strip(s)[|Strip(s)| - 1] == t[|t| - 1 - TrailingSpaces(t)];
    }
  }

  /** Index of the first `c` in `s`, or `|s|` when there is none (Python's `s.find(c)`, with `|s|` for -1). */
  function Find(s: string, c: char): (i: nat)
    ensures i <= |s|
  {
    if s == [] then 0
    else if s[0] == c then 0
    else 1 + Find(s[1..], c)
  }

  /** `Find` stops at the first `c`: none occurs before it, and it is `|s|` exactly when `c` does not occur at all. */
  lemma {:induction false} FindSpec(s: string, c: char)
    ensures c !in s[..Find(s, c)]
    ensures Find(s, c) < |s| ==> s[Find(s, c)] == c
    ensures Find(s, c) == |s| <==> c !in s
  {
    if s != [] && s[0] != c {
      FindSpec(s[1..], c);
      assert s[..Find(s, c)] == [s[0]] + s[1..][..Find(s[1..], c)];
      assert s == [s[0]] + s[1..];
    }
  }

  /** `sep.join(parts)` for a one-character separator. */
  function Join(parts: seq<string>, sep: char): string
  {
    if parts == [] then ""
    else if |parts| == 1 then parts[0]
    else parts[0] + [sep] + Join(parts[1..], sep)
  }

  /** `s.split(sep)` for a one-character separator: the pieces between the occurrences of `sep`. */
  function Split(s: string, sep: char): (parts: seq<string>)
    ensures |parts| >= 1
    decreases |s|
  {
    var i := Find(s, sep);
    if i == |s| then [s]
    else [s[..i]] + Split(s[i + 1..], sep)
  }

  /**
   * What `Split` computes: no piece contains the separator, and joining the
   * pieces back with it gives `s` (so `"".split("\n")` is `[""]`).
   */
  lemma {:induction false} SplitSpec(s: string, sep: char)
    ensures forall i | 0 <= i < |Split(s, sep)| :: sep !in Split(s, sep)[i]
    ensures Join(Split(s, sep), sep) == s
    decreases |s|
  {
    FindSpec(s, sep);
    var i := Find(s, sep);
    if i < |s| {
      SplitSpec(s[i + 1..], sep);
      assert s == s[..i] + [sep] + s[i + 1..];
    }
  }

  /** The decomposition `Split` computes is the only one: any separator-free pieces that join to `s` are `Split(s, sep)`. */
  lemma {:induction false} SplitUnique(s: string, sep: char, parts: seq<string>)
    requires |parts| >= 1
    requires forall i | 0 <= i < |parts| :: sep !in parts[i]
    requires Join(parts, sep) == s
    ensures parts == Split(s, sep)
    decreases |parts|
  {
    FindSpec(s, sep);
    if |parts| == 1 {
      assert s == parts[0];
    } else {
      var tail := Join(parts[1..], sep);
      assert s == parts[0] + [sep] + tail;
      assert s[|parts[0]|] == sep;
      var i := Find(s, sep);
      assert forall k | 0 <= k < |parts[0]| :: s[k] == parts[0][k];
      assert forall k | 0 <= k < i :: s[..i][k] == s[k];
      assert i == |parts[0]|;
      assert s[..i] == parts[0];
      assert s[i + 1..] == tail;
      SplitUnique(tail, sep, parts[1..]);
    }
  }

  /** `line.split(sep)[0]`: the text before the first `sep`, or all of `line` if it has none. */
  function FirstField(line: string, sep: char): string
  {
    line[..Find(line, sep)]
  }

  /** The first field is the head of the split: `line.split(sep)[0]`. */
  lemma FirstFieldIsSplitHead(line: string, sep: char)
    ensures FirstField(line, sep) == Split(line, sep)[0]
  {
  }

  /** The first field is the longest prefix of the line without `sep`: the line ends there or continues with `sep`. */
  lemma FirstFieldSpec(line: string, sep: char)
    ensures |FirstField(line, sep)| <= |line| && FirstField(line, sep) == line[..|FirstField(line, sep)|]
    ensures sep !in FirstField(line, sep)
    ensures |FirstField(line, sep)| < |line| ==> line[|FirstField(line, sep)|] == sep
  {
    FindSpec(line, sep);
  }

  /** `sub` occurs in `s` starting at index `i`. */
  predicate OccursAt(s: string, sub: string, i: int) {
    0 <= i && i + |sub| <= |s| && s[i..i + |sub|] == sub
  }

  /** Python's `sub in s`, as a left-to-right scan. */
  function Contains(s: string, sub: string): bool
    decreases |s|
  {
    if |sub| > |s| then false
    else s[..|sub|] == sub || Contains(s[1..], sub)
  }

  /** The scan finds `sub` exactly when `sub` occurs somewhere in `s`. */
  lemma {:induction false} ContainsIff(s: string, sub: string)
    ensures Contains(s, sub) <==> exists i :: OccursAt(s, sub, i)
    decreases |s|
  {
    if |sub| > |s| {
      assert forall i :: !OccursAt(s, sub, i);
    } else if s[..|sub|] == sub {
      assert OccursAt(s, sub, 0);
    } else {
      ContainsIff(s[1..], sub);
      if Contains(s[1..], sub) {
        var i :| OccursAt(s[1..], sub, i);
        assert s[i + 1..i + 1 + |sub|] == s[1..][i..i + |sub|];
        assert OccursAt(s, sub, i + 1);
      } else {
        forall i | OccursAt(s, sub, i) ensures OccursAt(s[1..], sub, i - 1) {
          assert s[0..|sub|] == s[..|sub|];
          assert i != 0;
          assert s[1..][i - 1..i - 1 + |sub|] == s[i..i + |sub|];
        }
      }
    }
  }
}
