/** `String.prototype.trim`, which `startGame` applies to the entered name: it removes the
    ECMAScript WhiteSpace and LineTerminator code points from both ends of a string. */
module Text {

  /** ECMAScript WhiteSpace (tab, vertical tab, form feed, space, no-break space, the byte order
      mark and the other space separators of Unicode category Zs) and LineTerminator (line feed,
      carriage return, line and paragraph separators). */
  predicate IsBlank(c: char)
  {
    c == '\t' || c == '\n' || c == '\U{B}' || c == '\U{C}' || c == '\r' || c == ' ' ||
    c == '\U{A0}' || c == '\U{1680}' || ('\U{2000}' <= c <= '\U{200A}') ||
    c == '\U{2028}' || c == '\U{2029}' || c == '\U{202F}' || c == '\U{205F}' ||
    c == '\U{3000}' || c == '\U{FEFF}'
  }

  predicate AllBlank(s: string)
  {
    forall i :: 0 <= i < |s| ==> IsBlank(s[i])
  }

  /** Drops the blank prefix: the result is a suffix of `s` that does not start with a blank
      character, and everything dropped was blank. */
  function TrimStart(s: string): (r: string)
    ensures |r| <= |s| && r == s[|s| - |r|..]
    ensures AllBlank(s[..|s| - |r|])
    ensures r == [] || !IsBlank(r[0])
    decreases |s|
  {
    if s != [] && IsBlank(s[0]) then
      var r := TrimStart(s[1..]);
      assert s[..|s| - |r|] == [s[0]] + s[1..][..|s| - 1 - |r|];
      r
    else s
  }

  /** Drops the blank suffix: the result is a prefix of `s` that does not end in a blank
      character, and everything dropped was blank. */
  function TrimEnd(s: string): (r: string)
    ensures |r| <= |s| && r == s[..|r|]
    ensures AllBlank(s[|r|..])
    ensures r == [] || !IsBlank(r[|r| - 1])
    decreases |s|
  {
    if s != [] && IsBlank(s[|s| - 1]) then
      var r := TrimEnd(s[..|s| - 1]);
      assert s[|r|..] == s[..|s| - 1][|r|..] + [s[|s| - 1]];
      r
    else s
  }

  function Trim(s: string): string
  {
    TrimEnd(TrimStart(s))
  }

  /** The name check of `startGame`: trimming leaves nothing exactly when every character
      of the input is blank (the empty input included). */
  lemma TrimEmptyIff(s: string)
    ensures Trim(s) == [] <==> AllBlank(s)
  {
  }

  /** A trimmed string is a contiguous piece of the input that starts and ends with a non-blank
      character (or is empty), and the pieces cut off on either side are blank. */
  lemma TrimShape(s: string)
    ensures var r := Trim(s);
      (exists i :: 0 <= i <= |s| - |r| && r == s[i..i + |r|] && AllBlank(s[..i]) && AllBlank(s[i + |r|..])) &&
      (r == [] || (!IsBlank(r[0]) && !IsBlank(r[|r| - 1])))
  {
    TrimSlice(s);
    TrimEnds(s);
  }

  /** A trimmed string is a contiguous piece of the input with blank pieces on either side. */
  lemma TrimSlice(s: string)
    ensures var r := Trim(s);
      exists i :: 0 <= i <= |s| - |r| && r == s[i..i + |r|] && AllBlank(s[..i]) && AllBlank(s[i + |r|..])
  {
    var t := TrimStart(s);
    var r := TrimEnd(t);
    var i := |s| - |t|;
    TrimPieces(s, i, t, r);
  }

  /** The pieces of `TrimShape` for the split point `i` where the blank prefix ends. */
  lemma TrimPieces(s: string, i: nat, t: string, r: string)
    requires i <= |s| && t == s[i..] && AllBlank(s[..i])
    requires |r| <= |t| && r == t[..|r|] && AllBlank(t[|r|..])
    ensures i + |r| <= |s| && r == s[i..i + |r|] && AllBlank(s[..i]) && AllBlank(s[i + |r|..])
  {
    SliceOfSuffix(s, i, |r|);
  }

  /** A trimmed string that is not empty starts and ends with a non-blank character. */
  lemma TrimEnds(s: string)
    ensures var r := Trim(s);
      r == [] || (!IsBlank(r[0]) && !IsBlank(r[|r| - 1]))
  {
    var t := TrimStart(s);
    var r := TrimEnd(t);
    if r != [] {
      assert r[0] == t[0];
    }
  }

  /** Cutting the suffix of `s` that starts at `i` at length `n` is slicing `s` itself. */
  lemma SliceOfSuffix(s: string, i: nat, n: nat)
    requires i + n <= |s|
    ensures s[i..][..n] == s[i..i + n] && s[i..][n..] == s[i + n..]
  {
  }

  /** Trimming twice is trimming once. */
  lemma TrimIdempotent(s: string)
    ensures Trim(Trim(s)) == Trim(s)
  {
    var r := Trim(s);
    TrimShape(s);
    if r != [] {
      assert TrimStart(r) == r;
      assert TrimEnd(r) == r;
    }
  }
}
