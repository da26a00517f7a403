/** The JavaScript string methods the storefront relies on, over `seq<char>`. */
module Text {

  /** The characters `String.prototype.trim` strips: ECMAScript WhiteSpace and LineTerminator. */
  predicate IsWhitespace(c: char) {
    || c == ' ' || c == '\t' || c == '\n' || c == '\r'
    || c == '\U{000B}' || c == '\U{000C}' || c == '\U{00A0}' || c == '\U{1680}'
    || ('\U{2000}' <= c <= '\U{200A}')
    || c == '\U{2028}' || c == '\U{2029}' || c == '\U{202F}' || c == '\U{205F}'
    || c == '\U{3000}' || c == '\U{FEFF}'
  }

  /** Every character of `s` is whitespace (the empty string included). */
  predicate IsBlank(s: string) {
    forall i :: 0 <= i < |s| ==> IsWhitespace(s[i])
  }

  /** `trimStart`: `s` without its leading whitespace. */
  function TrimStart(s: string): (r: string)
    ensures |r| <= |s| && r == s[|s| - |r|..]
    ensures IsBlank(s[..|s| - |r|])
    ensures r == [] || !IsWhitespace(r[0])
  {
    if s != [] && IsWhitespace(s[0]) then
      var r := TrimStart(s[1..]);
      assert s[..|s| - |r|] == [s[0]] + s[1..][..|s[1..]| - |r|];
      r
    else s
  }

  /** `trimEnd`: `s` without its trailing whitespace. */
  function TrimEnd(s: string): (r: string)
    ensures |r| <= |s| && r == s[..|r|]
    ensures IsBlank(s[|r|..])
    ensures r == [] || !IsWhitespace(r[|r| - 1])
  {
    if s != [] && IsWhitespace(s[|s| - 1]) then
      var r := TrimEnd(s[..|s| - 1]);
      assert s[|r|..] == s[..|s| - 1][|r|..] + [s[|s| - 1]];
      r
    else s
  }

  /** `String.prototype.trim`. */
  function Trim(s: string): string {
    TrimEnd(TrimStart(s))
  }

  /** `!s.trim()` in JavaScript: trimming leaves nothing exactly when every character is whitespace. */
  lemma TrimIsEmptyIffBlank(s: string)
    ensures Trim(s) == "" <==> IsBlank(s)
  {
    var t := TrimStart(s);
    if Trim(s) == "" {
      assert IsBlank(t[0..]);
      assert t == [];
      assert s[..|s|] == s;
    }
  }

  /** ASCII lower-casing of one character; other characters are left as they are. */
  function LowerChar(c: char): char {
    if 'A' <= c <= 'Z' then (c as int + 32) as char else c
  }

  /** `toLowerCase`, restricted to ASCII letters. */
  function Lower(s: string): (r: string)
    ensures |r| == |s|
  {
    seq(|s|, i requires 0 <= i < |s| => LowerChar(s[i]))
  }

  /** `needle` occurs in `hay` starting at position `i`. */
  predicate OccursAt(hay: string, needle: string, i: int) {
    0 <= i && i + |needle| <= |hay| && hay[i..i + |needle|] == needle
  }

  /** `String.prototype.includes`: scan `hay` from the left for `needle`. */
  function Contains(hay: string, needle: string): (r: bool)
    ensures r <==> exists i :: OccursAt(hay, needle, i)
  {
    if needle <= hay then
      assert OccursAt(hay, needle, 0);
      true
    else if hay == [] then
      assert forall i :: !OccursAt(hay, needle, i);
      false
    else
      var r := Contains(hay[1..], needle);
      assert forall i :: OccursAt(hay[1..], needle, i) <==> OccursAt(hay, needle, i + 1) by {
        forall i ensures OccursAt(hay[1..], needle, i) <==> OccursAt(hay, needle, i + 1) {
          if 0 <= i && i + |needle| <= |hay[1..]| {
            assert hay[1..][i..i + |needle|] == hay[i + 1..i + 1 + |needle|];
          }
        }
      }
      assert !OccursAt(hay, needle, 0);
      assert forall i :: OccursAt(hay, needle, i) ==> i >= 1 && OccursAt(hay[1..], needle, i - 1);
      r
  }

  /** The empty string occurs in every string, so an empty search matches everything. */
  lemma EmptyIsContained(hay: string)
    ensures Contains(hay, "")
  {
    assert OccursAt(hay, "", 0);
  }

  /** Text found in a string is still found after something is put in front of it. */
  lemma ContainsAfterPrefix(before: string, hay: string, needle: string)
    requires Contains(hay, needle)
    ensures Contains(before + hay, needle)
  {
    var i :| OccursAt(hay, needle, i);
    assert (before + hay)[|before| + i..|before| + i + |needle|] == hay[i..i + |needle|];
    assert OccursAt(before + hay, needle, |before| + i);
  }

  /** Text found in a prefix of a string is found in the string. */
  lemma ContainsInLonger(prefix: string, hay: string, needle: string)
    requires prefix <= hay && Contains(prefix, needle)
    ensures Contains(hay, needle)
  {
    var i :| OccursAt(prefix, needle, i);
    assert hay[i..i + |needle|] == prefix[i..i + |needle|];
    assert OccursAt(hay, needle, i);
  }

  /**
   * `s.split('.').pop()`: the text after the last '.', or the whole of `s` when it has no '.'.
   */
  function AfterLastDot(s: string): string {
    if s == [] then []
    else if s[|s| - 1] == '.' then []
    else AfterLastDot(s[..|s| - 1]) + [s[|s| - 1]]
  }

  /**
   * The extension is a dot-free suffix of `s`, preceded in `s` by a '.', and it is all of `s`
   * exactly when `s` has no '.'.
   */
  lemma {:induction false} AfterLastDotShape(s: string)
    ensures var r := AfterLastDot(s);
      && |r| <= |s| && r == s[|s| - |r|..]
      && '.' !in r
      && (|r| < |s| ==> s[|s| - |r| - 1] == '.')
      && (r == s <==> '.' !in s)
  {
    if s != [] && s[|s| - 1] != '.' {
      var init, c := s[..|s| - 1], s[|s| - 1];
      var r0 := AfterLastDot(init);
      AfterLastDotShape(init);
      var r := r0 + [c];
      assert AfterLastDot(s) == r;
      assert s == init + [c];
      assert s[|s| - |r|..] == init[|init| - |r0|..] + [c];
      assert '.' !in r by {
        forall i | 0 <= i < |r| ensures r[i] != '.' {
          if i < |r0| {
            assert r[i] == r0[i];
          }
        }
      }
      if |r| < |s| {
        assert s[|s| - |r| - 1] == init[|init| - |r0| - 1];
      }
      assert r == s <==> r0 == init;
      assert '.' in s <==> '.' in init;
    }
  }
}
