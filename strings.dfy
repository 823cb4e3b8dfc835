/**
 * The string operations the scripts rely on: `str.lower()`, the suffix of a
 * path's final component, `str.split(sep)` with one separator character, and
 * `str.rstrip(c)` with one character.
 */
module Strings {

  function LowerChar(c: char): char
  {
    if 'A' <= c <= 'Z' then (c as int + 32) as char else c
  }

  /** `s.lower()`, for the ASCII letters. */
  function Lower(s: string): (r: string)
    ensures |r| == |s|
    ensures forall i :: 0 <= i < |s| ==> r[i] == LowerChar(s[i])
    ensures forall i :: 0 <= i < |s| ==> !('A' <= r[i] <= 'Z')
  {
    seq(|s|, i requires 0 <= i < |s| => LowerChar(s[i]))
  }

  /** `s.rfind(c)`: the position of the last `c` in `s`, or -1. */
  function LastIndexOf(s: string, c: char): (i: int)
    ensures -1 <= i < |s|
    ensures i >= 0 ==> s[i] == c
    ensures forall j :: i < j < |s| ==> s[j] != c
  {
    if |s| == 0 then -1
    else if s[|s| - 1] == c then |s| - 1
    else LastIndexOf(s[..|s| - 1], c)
  }

  /**
   * The suffix of a final path component: the text from its last `.`, or the
   * empty string when it has no `.`, when the last `.` is its first character
   * (a hidden file such as `.bashrc`) or when the last `.` is its last character.
   */
  function Suffix(name: string): (r: string)
    ensures r == "" <==> |name| == 0 || name[|name| - 1] == '.' || '.' !in name[1..]
    ensures r != "" ==> 2 <= |r| < |name| && r[0] == '.' && '.' !in r[1..]
    ensures r != "" ==> name == name[..|name| - |r|] + r
  {
    var i := LastIndexOf(name, '.');
    assert i >= 1 ==> name[i] in name[1..] by {
      if i >= 1 { assert name[1..][i - 1] == name[i]; }
    }
    assert |name| > 0 && '.' in name[1..] && name[|name| - 1] != '.' ==> i >= 1 by {
      if |name| > 0 && '.' in name[1..] {
        var k :| 0 <= k < |name| - 1 && name[1..][k] == '.';
        assert name[k + 1] == '.';
      }
    }
    if 0 < i < |name| - 1 then
      assert forall k :: 0 <= k < |name| - i - 1 ==> name[i..][1..][k] == name[i + 1 + k];
      name[i..]
    else ""
  }

  /** A name made of a non-empty stem, a dot and a dot-free non-empty extension has that extension as its suffix. */
  lemma SuffixOfStemAndExtension(stem: string, ext: string)
    requires stem != [] && ext != [] && '.' !in ext
    ensures Suffix(stem + "." + ext) == "." + ext
  {
    var name := stem + "." + ext;
    var i := LastIndexOf(name, '.');
    assert name[|stem|] == '.';
    assert i == |stem|;
    assert name[i..] == "." + ext;
  }

  /** `s.split(sep)`: the pieces between the separators, an empty piece wherever two separators touch or one stands at an end. */
  function Split(s: string, sep: char): (parts: seq<string>)
    ensures |parts| >= 1
    ensures forall k :: 0 <= k < |parts| ==> sep !in parts[k]
    decreases |s|
  {
    if |s| == 0 then [""]
    else
      var rest := Split(s[1..], sep);
      if s[0] == sep then [""] + rest
      else [[s[0]] + rest[0]] + rest[1..]
  }

  /** `sep.join(parts)`. */
  function Join(parts: seq<string>, sep: char): string
    requires |parts| >= 1
  {
    if |parts| == 1 then parts[0] else parts[0] + [sep] + Join(parts[1..], sep)
  }

  lemma {:induction false} JoinConsChar(c: char, head: string, tail: seq<string>, sep: char)
    ensures Join([[c] + head] + tail, sep) == [c] + Join([head] + tail, sep)
  {
    assert ([[c] + head] + tail)[1..] == tail;
    assert ([head] + tail)[1..] == tail;
  }

  /** Joining the pieces of a split gives back the original string. */
  lemma {:induction false} JoinSplit(s: string, sep: char)
    ensures Join(Split(s, sep), sep) == s
    decreases |s|
  {
    if |s| > 0 {
      var rest := Split(s[1..], sep);
      JoinSplit(s[1..], sep);
      if s[0] == sep {
        assert ([""] + rest)[1..] == rest;
      } else {
        assert rest == [rest[0]] + rest[1..];
        JoinConsChar(s[0], rest[0], rest[1..], sep);
      }
      assert s == [s[0]] + s[1..];
    }
  }

  /** Splitting a join of separator-free pieces gives back the pieces. */
  lemma {:induction false} SplitJoin(parts: seq<string>, sep: char)
    requires |parts| >= 1
    requires forall k :: 0 <= k < |parts| ==> sep !in parts[k]
    ensures Split(Join(parts, sep), sep) == parts
    decreases |parts|, |parts[0]|
  {
    var head := parts[0];
    if |head| > 0 {
      var shorter := [head[1..]] + parts[1..];
      assert forall k :: 0 <= k < |shorter| ==> sep !in shorter[k] by {
        forall k | 0 <= k < |shorter| ensures sep !in shorter[k] {
          if k == 0 {
            assert forall c :: c in head[1..] ==> c in head;
          } else {
            assert shorter[k] == parts[k];
          }
        }
      }
      SplitJoin(shorter, sep);
      assert head == [head[0]] + head[1..];
      assert parts == [[head[0]] + head[1..]] + parts[1..];
      JoinConsChar(head[0], head[1..], parts[1..], sep);
      var s := Join(parts, sep);
      assert s[0] == head[0] && s[1..] == Join(shorter, sep);
      assert head[0] in head;
    } else if |parts| > 1 {
      SplitJoin(parts[1..], sep);
      var s := Join(parts, sep);
      assert s == [sep] + Join(parts[1..], sep);
      assert s[1..] == Join(parts[1..], sep);
      assert parts == [""] + parts[1..];
    }
  }

  /** `s.rstrip(c)` with a single character: every trailing `c` removed. */
  function TrimTrailing(s: string, c: char): (r: string)
    ensures r <= s
    ensures |r| == 0 || r[|r| - 1] != c
    ensures forall i :: |r| <= i < |s| ==> s[i] == c
  {
    if |s| > 0 && s[|s| - 1] == c then TrimTrailing(s[..|s| - 1], c) else s
  }

  /** Stripping twice strips nothing more. */
  lemma TrimTrailingIdempotent(s: string, c: char)
    ensures TrimTrailing(TrimTrailing(s, c), c) == TrimTrailing(s, c)
  {
  }
}
