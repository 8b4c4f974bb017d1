/** The two string operations of the invoice builder that decide layout and
    validity: JavaScript's `String.prototype.trim` (only whether its result is
    empty matters) and `split('\n')` on the client address. */
module Text {

  /** The characters `trim` removes: the WhiteSpace and LineTerminator code
      points of ECMAScript (tab, vertical tab, form feed, space, no-break
      space, byte order mark, the space separators of category Zs, line feed,
      carriage return, line and paragraph separators). */
  predicate IsJsSpace(c: char) {
    || c == '\t' || c == '\U{000B}' || c == '\U{000C}' || c == ' '
    || c == '\U{00A0}' || c == '\U{FEFF}'
    || c == '\U{1680}' || ('\U{2000}' <= c <= '\U{200A}')
    || c == '\U{202F}' || c == '\U{205F}' || c == '\U{3000}'
    || c == '\n' || c == '\r' || c == '\U{2028}' || c == '\U{2029}'
  }

  /** Every character of `s` is one that `trim` removes. */
  predicate AllSpace(s: string) {
    forall i :: 0 <= i < |s| ==> IsJsSpace(s[i])
  }

  /** Removes leading white space: the result is the longest suffix of `s`
      that does not start with white space. */
  function TrimStart(s: string): (r: string)
    ensures |r| <= |s| && r == s[|s| - |r|..]
    ensures r != [] ==> !IsJsSpace(r[0])
    ensures AllSpace(s[..|s| - |r|])
  {
    if s != [] && IsJsSpace(s[0]) then TrimStart(s[1..]) else s
  }

  /** Removes trailing white space: the result is the longest prefix of `s`
      that does not end with white space. */
  function TrimEnd(s: string): (r: string)
    ensures |r| <= |s| && r == s[..|r|]
    ensures r != [] ==> !IsJsSpace(r[|r| - 1])
    ensures AllSpace(s[|r|..])
  {
    if s != [] && IsJsSpace(s[|s| - 1]) then TrimEnd(s[..|s| - 1]) else s
  }

  /** JavaScript's `s.trim()`: `s` with its leading and trailing white space
      cut off, leaving a stretch that neither starts nor ends with white
      space. */
  function Trim(s: string): (r: string)
    ensures exists i, j :: 0 <= i <= j <= |s| && r == s[i..j] && AllSpace(s[..i]) && AllSpace(s[j..])
    ensures r != [] ==> !IsJsSpace(r[0]) && !IsJsSpace(r[|r| - 1])
    ensures |r| <= |s|
  {
    var t := TrimStart(s);
    var r := TrimEnd(t);
    InnerStretch(s, t, r);
    r
  }

  /** A suffix of `s` after white space, cut before trailing white space,
      is a stretch of `s` between an all-space prefix and suffix. */
  lemma InnerStretch(s: string, t: string, r: string)
    requires |t| <= |s| && t == s[|s| - |t|..] && AllSpace(s[..|s| - |t|])
    requires |r| <= |t| && r == t[..|r|] && AllSpace(t[|r|..])
    ensures exists i, j :: 0 <= i <= j <= |s| && r == s[i..j] && AllSpace(s[..i]) && AllSpace(s[j..])
  {
    var i := |s| - |t|;
    var j := i + |r|;
    assert r == s[i..j] && t[|r|..] == s[j..];
  }

  /** Trimming leaves nothing exactly when every character is white space. */
  lemma TrimEmptyIffAllSpace(s: string)
    ensures Trim(s) == [] <==> AllSpace(s)
  {
    var t := TrimStart(s);
    var r := TrimEnd(t);
    if r == [] {
      assert t[|r|..] == t;
      assert t == [];
      assert s[..|s| - |t|] == s;
    }
    if t != [] {
      assert t[0] == s[|s| - |t|];
    }
  }

  /** `!s.trim()`: the text holds nothing but white space, checked character
      by character; BlankIffTrimEmpty shows this is the same as trimming to
      the empty string. */
  predicate IsBlank(s: string): (b: bool)
    ensures b <==> AllSpace(s)
  {
    if s == [] then true
    else
      assert forall i :: 0 <= i < |s[1..]| ==> s[1..][i] == s[i + 1];
      IsJsSpace(s[0]) && IsBlank(s[1..])
  }

  /** The blank test is exactly "trim gives the empty string". */
  lemma BlankIffTrimEmpty(s: string)
    ensures IsBlank(s) <==> Trim(s) == []
  {
    TrimEmptyIffAllSpace(s);
  }

  /** JavaScript's `s.split('\n')`: the pieces between line feeds, in order;
      a string with k line feeds gives k + 1 pieces, some possibly empty. */
  function SplitLines(s: string): (lines: seq<string>)
    ensures |lines| >= 1
    ensures forall k :: 0 <= k < |lines| ==> '\n' !in lines[k]
  {
    if s == [] then [[]]
    else
      var rest := SplitLines(s[1..]);
      if s[0] == '\n' then [[]] + rest
      else [[s[0]] + rest[0]] + rest[1..]
  }

  /** `lines.join('\n')`, the inverse of SplitLines. */
  function JoinLines(lines: seq<string>): string
    requires |lines| >= 1
  {
    if |lines| == 1 then lines[0] else lines[0] + "\n" + JoinLines(lines[1..])
  }

  /** Splitting loses nothing: joining the pieces back gives the text. */
  lemma {:induction false} JoinSplitLines(s: string)
    ensures JoinLines(SplitLines(s)) == s
  {
    if s != [] {
      var rest := SplitLines(s[1..]);
      JoinSplitLines(s[1..]);
      if s[0] == '\n' {
        assert SplitLines(s)[1..] == rest;
      } else if |rest| == 1 {
        assert SplitLines(s) == [[s[0]] + rest[0]];
      } else {
        assert SplitLines(s)[1..] == rest[1..];
        assert JoinLines(rest) == rest[0] + "\n" + JoinLines(rest[1..]);
      }
    }
  }

  /** Text without a line feed, followed by more text, is glued to the first
      piece of the rest. */
  lemma {:induction false} SplitLinesPrefix(a: string, s: string)
    requires '\n' !in a
    ensures SplitLines(a + s) == [a + SplitLines(s)[0]] + SplitLines(s)[1..]
  {
    if a != [] {
      var t := a[1..] + s;
      assert (a + s)[0] == a[0] && (a + s)[1..] == t;
      assert a[0] != '\n' by { assert a[0] in a; }
      SplitLinesPrefix(a[1..], s);
      var pieces := SplitLines(s);
      var rest := SplitLines(t);
      assert rest[0] == a[1..] + pieces[0] && rest[1..] == pieces[1..];
      assert SplitLines(a + s) == [[a[0]] + rest[0]] + rest[1..];
      assert [a[0]] + (a[1..] + pieces[0]) == a + pieces[0];
    } else {
      assert a + s == s;
      var pieces := SplitLines(s);
      assert a + pieces[0] == pieces[0];
      assert [pieces[0]] + pieces[1..] == pieces;
    }
  }

  /** Joining pieces that hold no line feed and splitting again gives the
      same pieces. */
  lemma {:induction false} SplitJoinLines(lines: seq<string>)
    requires |lines| >= 1
    requires forall k :: 0 <= k < |lines| ==> '\n' !in lines[k]
    ensures SplitLines(JoinLines(lines)) == lines
  {
    var first := lines[0];
    if |lines| == 1 {
      SplitLinesPrefix(first, []);
      assert first + [] == first;
      assert SplitLines([]) == [[]];
      assert [first] == lines;
    } else {
      var tail := JoinLines(lines[1..]);
      var nl := "\n" + tail;
      assert JoinLines(lines) == first + nl;
      SplitJoinLines(lines[1..]);
      assert nl[0] == '\n' && nl[1..] == tail;
      assert SplitLines(nl) == [[]] + lines[1..];
      SplitLinesPrefix(first, nl);
      assert first + [] == first;
      assert [first] + lines[1..] == lines;
    }
  }

  /** The number of pieces that are not blank once trimmed. */
  function CountNonBlank(lines: seq<string>): (n: nat)
    ensures n <= |lines|
  {
    if lines == [] then 0
    else (if IsBlank(lines[0]) then 0 else 1) + CountNonBlank(lines[1..])
  }

  /** Pieces that are all blank count for nothing. */
  lemma {:induction false} AllBlankCountsZero(lines: seq<string>)
    requires forall k :: 0 <= k < |lines| ==> IsBlank(lines[k])
    ensures CountNonBlank(lines) == 0
  {
    if lines != [] {
      assert forall k :: 0 <= k < |lines[1..]| ==> lines[1..][k] == lines[k + 1];
      AllBlankCountsZero(lines[1..]);
    }
  }

  /** Counting piece by piece from the left, as a loop over the pieces does. */
  lemma {:induction false} CountNonBlankSnoc(lines: seq<string>, line: string)
    ensures CountNonBlank(lines + [line])
         == CountNonBlank(lines) + (if IsBlank(line) then 0 else 1)
  {
    if lines == [] {
      assert [] + [line] == [line];
    } else {
      assert (lines + [line])[1..] == lines[1..] + [line];
      CountNonBlankSnoc(lines[1..], line);
    }
  }
}
