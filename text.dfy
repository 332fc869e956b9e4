/**
 * The string operations the pipeline relies on, over `string` (= `seq<char>`,
 * one element per Unicode scalar value, as Python's `str` has one per code point).
 */
module Text {
  import opened Wrappers

  /** Python truthiness of an optional string: neither `None` nor `""`. */
  predicate Truthy(s: Option<string>) {
    s.Some? && s.value != ""
  }

  /** `str.lower()` on one character, for the ASCII letters. */
  function LowerChar(c: char): char {
    if 'A' <= c <= 'Z' then ((c as int) + 32) as char else c
  }

  /** `str.lower()`, character by character. */
  function Lower(s: string): (r: string)
    ensures |r| == |s|
    ensures forall i | 0 <= i < |s| :: r[i] == LowerChar(s[i])
  {
    seq(|s|, i requires 0 <= i < |s| => LowerChar(s[i]))
  }

  /** Python's `needle in hay` for strings, trying each start position in turn. */
  predicate Contains(hay: string, needle: string)
    decreases |hay|
  {
    needle <= hay || (hay != [] && Contains(hay[1..], needle))
  }

  /** `needle` occurs in `hay` at offset `i`: the reference meaning of "substring". */
  predicate OccursAt(hay: string, needle: string, i: int) {
    0 <= i && i + |needle| <= |hay| && hay[i..i + |needle|] == needle
  }

  /** A needle the scan finds occurs at some offset. */
  lemma {:induction false} ContainsOccurs(hay: string, needle: string) returns (i: nat)
    requires Contains(hay, needle)
    ensures OccursAt(hay, needle, i)
    decreases |hay|
  {
    if needle <= hay {
      i := 0;
    } else {
      var j := ContainsOccurs(hay[1..], needle);
      assert hay[1..][j..j + |needle|] == hay[j + 1..j + 1 + |needle|];
      i := j + 1;
    }
  }

  /** A needle occurring at some offset is found by the scan. */
  lemma {:induction false} OccursContains(hay: string, needle: string, i: int)
    requires OccursAt(hay, needle, i)
    ensures Contains(hay, needle)
    decreases i
  {
    if i > 0 {
      assert hay[1..][i - 1..i - 1 + |needle|] == hay[i..i + |needle|];
      OccursContains(hay[1..], needle, i - 1);
    }
  }

  /** The scanning test `Contains` decides exactly "occurs at some offset". */
  lemma ContainsIffOccurs(hay: string, needle: string)
    ensures Contains(hay, needle) <==> exists i :: OccursAt(hay, needle, i)
  {
    if Contains(hay, needle) {
      var i := ContainsOccurs(hay, needle);
    }
    if i :| OccursAt(hay, needle, i) {
      OccursContains(hay, needle, i);
    }
  }

  /** Whatever sits between `a` and `c` is contained in the concatenation. */
  lemma ContainsInfix(a: string, b: string, c: string)
    ensures Contains(a + b + c, b)
  {
    var s := a + b + c;
    assert s[|a|..|a| + |b|] == b;
    OccursContains(s, b, |a|);
  }

  /** Text around a string keeps every substring of it. */
  lemma ContainsWithin(a: string, hay: string, c: string, needle: string)
    requires Contains(hay, needle)
    ensures Contains(a + hay + c, needle)
  {
    var i := ContainsOccurs(hay, needle);
    var s := a + hay + c;
    assert s[|a| + i..|a| + i + |needle|] == hay[i..i + |needle|];
    OccursContains(s, needle, |a| + i);
  }

  /** Each part of a joined list occurs in the joined string. */
  lemma {:induction false} JoinContainsPart(sep: string, parts: seq<string>, k: nat)
    requires k < |parts|
    ensures Contains(Join(sep, parts), parts[k])
    decreases |parts|
  {
    if |parts| == 1 {
      ContainsInfix("", parts[0], "");
      assert "" + parts[0] + "" == parts[0];
    } else if k == 0 {
      ContainsInfix("", parts[0], sep + Join(sep, parts[1..]));
      assert "" + parts[0] + (sep + Join(sep, parts[1..])) == Join(sep, parts);
    } else {
      JoinContainsPart(sep, parts[1..], k - 1);
      ContainsWithin(parts[0] + sep, Join(sep, parts[1..]), "", parts[k]);
      assert parts[0] + sep + Join(sep, parts[1..]) + "" == Join(sep, parts);
    }
  }

  /** Python's `str.isspace()` for one character (also the characters regex `\s` matches). */
  predicate IsSpace(c: char) {
    || ('\t' <= c <= '\r')
    || ('\U{1C}' <= c <= '\U{1F}')
    || c == ' '
    || c == '\U{85}'
    || c == '\U{A0}'
    || c == '\U{1680}'
    || ('\U{2000}' <= c <= '\U{200A}')
    || c == '\U{2028}'
    || c == '\U{2029}'
    || c == '\U{202F}'
    || c == '\U{205F}'
    || c == '\U{3000}'
  }

  /** `s` with its leading whitespace removed. */
  function StripStart(s: string): (r: string)
    ensures |r| <= |s|
    decreases |s|
  {
    if s != [] && IsSpace(s[0]) then StripStart(s[1..]) else s
  }

  /** `StripStart` drops exactly the leading run of whitespace. */
  lemma {:induction false} StripStartDropsSpace(s: string)
    ensures StripStart(s) == s[|s| - |StripStart(s)|..]
    ensures forall k | 0 <= k < |s| - |StripStart(s)| :: IsSpace(s[k])
    ensures StripStart(s) == [] || !IsSpace(StripStart(s)[0])
    decreases |s|
  {
    if s != [] && IsSpace(s[0]) {
      StripStartDropsSpace(s[1..]);
      assert s[1..][|s| - 1 - |StripStart(s)|..] == s[|s| - |StripStart(s)|..];
    }
  }

  /** `s` with its trailing whitespace removed. */
  function StripEnd(s: string): (r: string)
    ensures |r| <= |s|
    decreases |s|
  {
    if s != [] && IsSpace(s[|s| - 1]) then StripEnd(s[..|s| - 1]) else s
  }

  /** `StripEnd` drops exactly the trailing run of whitespace. */
  lemma {:induction false} StripEndDropsSpace(s: string)
    ensures StripEnd(s) == s[..|StripEnd(s)|]
    ensures forall k | |StripEnd(s)| <= k < |s| :: IsSpace(s[k])
    ensures StripEnd(s) == [] || !IsSpace(StripEnd(s)[|StripEnd(s)| - 1])
    decreases |s|
  {
    if s != [] && IsSpace(s[|s| - 1]) {
      StripEndDropsSpace(s[..|s| - 1]);
      assert s[..|s| - 1][..|StripEnd(s)|] == s[..|StripEnd(s)|];
    }
  }

  /** `str.strip()`. */
  function Strip(s: string): (r: string)
    ensures |r| <= |s|
  {
    StripEnd(StripStart(s))
  }

  /**
   * `Strip(s)` is the slice `s[a..b]` left when the whitespace before `a` and
   * from `b` on is removed, and no whitespace is left at either of its ends.
   */
  lemma StripIsSlice(s: string) returns (a: nat, b: nat)
    ensures a <= b <= |s| && Strip(s) == s[a..b]
    ensures forall k | 0 <= k < a :: IsSpace(s[k])
    ensures forall k | b <= k < |s| :: IsSpace(s[k])
    ensures Strip(s) == [] || (!IsSpace(Strip(s)[0]) && !IsSpace(Strip(s)[|Strip(s)| - 1]))
  {
    var t := StripStart(s);
    var u := StripEnd(t);
    StripStartDropsSpace(s);
    StripEndDropsSpace(t);
    a := |s| - |t|;
    b := a + |u|;
    assert u == s[a..b];
    forall k | b <= k < |s| ensures IsSpace(s[k]) {
      assert s[k] == t[k - a];
    }
    if u != [] {
      assert u[0] == t[0];
    }
  }

  /** `s.endswith(suffix)`. */
  predicate EndsWith(s: string, suffix: string) {
    |suffix| <= |s| && s[|s| - |suffix|..] == suffix
  }

  /** The lines of `s`: the pieces between its `'\n'` characters. */
  function Lines(s: string): (ls: seq<string>)
    ensures |ls| >= 1
    ensures forall i | 0 <= i < |ls| :: '\n' !in ls[i]
    decreases |s|
  {
    if s == [] then [""]
    else
      var rest := Lines(s[1..]);
      if s[0] == '\n' then [""] + rest
      else [[s[0]] + rest[0]] + rest[1..]
  }

  /** Splitting at line breaks loses nothing: joining the lines with `\n` gives the text back. */
  lemma {:induction false} LinesJoin(s: string)
    ensures Join("\n", Lines(s)) == s
    decreases |s|
  {
    if s != [] {
      var rest := Lines(s[1..]);
      LinesJoin(s[1..]);
      if s[0] == '\n' {
        assert Join("\n", Lines(s)) == "" + "\n" + Join("\n", rest);
      } else if |rest| == 1 {
        assert Join("\n", Lines(s)) == [s[0]] + rest[0];
      } else {
        assert Join("\n", Lines(s)) == [s[0]] + rest[0] + "\n" + Join("\n", rest[1..]);
      }
      assert s == [s[0]] + s[1..];
    }
  }

  /** `sep.join(parts)`. */
  function Join(sep: string, parts: seq<string>): string
    decreases |parts|
  {
    if parts == [] then ""
    else if |parts| == 1 then parts[0]
    else parts[0] + sep + Join(sep, parts[1..])
  }
}
