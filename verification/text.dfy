/** The string operations the backend applies: Python's `str.lower`,
    `str.replace` of one character, and `str.strip`. */
module Text {
  import opened Seqs

  /** Capital letters of the Slovene and Croatian alphabets outside ASCII
      (Ć, Č, Đ, Š, Ž); each lowercase form is the next code point. */
  predicate IsLatinCapital(c: char) {
    c == '\U{0106}' || c == '\U{010C}' || c == '\U{0110}' || c == '\U{0160}' || c == '\U{017D}'
  }

  /** The upper-case letters the model folds. */
  predicate IsUpper(c: char) {
    ('A' <= c <= 'Z') || IsLatinCapital(c)
  }

  /** A string with no upper-case letter left. */
  predicate NoUpper(s: string) {
    forall i :: 0 <= i < |s| ==> !IsUpper(s[i])
  }

  /** The lowercase form of one character. */
  function LowerChar(c: char): (r: char)
    ensures !IsUpper(r)
    ensures IsUpper(c) <==> r != c
  {
    if 'A' <= c <= 'Z' then (c as int + 32) as char
    else if IsLatinCapital(c) then (c as int + 1) as char
    else c
  }

  /** Python's `s.lower()` on the modelled alphabet. */
  function Lower(s: string): (r: string)
    ensures |r| == |s|
    ensures NoUpper(r)
    ensures forall i :: 0 <= i < |s| ==> (r[i] == s[i] <==> !IsUpper(s[i]))
    ensures forall i :: 0 <= i < |s| ==> r[i] == LowerChar(s[i])
  {
    MapSeq(LowerChar, s)
  }

  /** The modelled capitals, and their lowercase forms at the same positions. */
  const Capitals: string := "ABCDEFGHIJKLMNOPQRSTUVWXYZĆČĐŠŽ"
  const Smalls: string := "abcdefghijklmnopqrstuvwxyzćčđšž"

  /** Lowercasing maps the capitals onto the small letters, position by
      position, and the capitals are all the model folds. */
  lemma LowerAlphabet()
    ensures |Capitals| == |Smalls| == 31
    ensures forall c :: IsUpper(c) <==> c in Capitals
    ensures Lower(Capitals) == Smalls
  {
    LowerAlphabetChars();
    forall c | IsUpper(c) ensures c in Capitals {
      CapitalListed(c);
    }
  }

  /** Each capital becomes the small letter at its position. */
  lemma LowerAlphabetChars()
    ensures forall i :: 0 <= i < 31 ==> IsUpper(Capitals[i]) && LowerChar(Capitals[i]) == Smalls[i]
  {
    LowerAsciiChars();
    LowerLatinChars();
  }

  /** `A` to `Z` become `a` to `z`, checked in two halves only to keep
      each proof small. */
  lemma LowerAsciiChars()
    ensures forall i :: 0 <= i < 26 ==> IsUpper(Capitals[i]) && LowerChar(Capitals[i]) == Smalls[i]
  {
    LowerAsciiFirstHalf();
    LowerAsciiSecondHalf();
  }

  /** `A` to `M` become `a` to `m`. */
  lemma LowerAsciiFirstHalf()
    ensures forall i :: 0 <= i < 13 ==> IsUpper(Capitals[i]) && LowerChar(Capitals[i]) == Smalls[i]
  {
  }

  /** `N` to `Z` become `n` to `z`. */
  lemma LowerAsciiSecondHalf()
    ensures forall i :: 13 <= i < 26 ==> IsUpper(Capitals[i]) && LowerChar(Capitals[i]) == Smalls[i]
  {
  }

  /** Ć, Č, Đ, Š, Ž become ć, č, đ, š, ž. */
  lemma LowerLatinChars()
    ensures forall i :: 26 <= i < 31 ==> IsUpper(Capitals[i]) && LowerChar(Capitals[i]) == Smalls[i]
  {
  }

  /** Every folded capital appears in `Capitals`. */
  lemma CapitalListed(c: char)
    requires IsUpper(c)
    ensures c in Capitals
  {
    if 'A' <= c <= 'Z' {
      assert Capitals[c as int - 'A' as int] == c;
    } else {
      assert c in Capitals[26..];
    }
  }

  /** Lowering twice is lowering once. */
  lemma LowerIdempotent(s: string)
    ensures Lower(Lower(s)) == Lower(s)
  {
  }

  /** A string with no capital is its own lowercase form. */
  lemma LowerOfLowercase(s: string)
    requires NoUpper(s)
    ensures Lower(s) == s
  {
  }

  /** Python's `s.replace(from, to)` for single-character arguments. */
  function ReplaceChar(s: string, from: char, to: char): (r: string)
    ensures |r| == |s|
    ensures from != to ==> from !in r
    ensures forall i :: 0 <= i < |s| ==> r[i] == (if s[i] == from then to else s[i])
  {
    MapSeq(c => if c == from then to else c, s)
  }

  /** Python's `str.isspace` on one character: the code points of
      bidirectional class WS, B or S, or of category Zs. */
  predicate IsSpace(c: char) {
    || '\t' <= c <= '\r'
    || '\U{1C}' <= c <= ' '
    || c == '\U{85}' || c == '\U{A0}' || c == '\U{1680}'
    || '\U{2000}' <= c <= '\U{200A}'
    || c == '\U{2028}' || c == '\U{2029}' || c == '\U{202F}'
    || c == '\U{205F}' || c == '\U{3000}'
  }

  /** Every character is white space. */
  predicate AllSpace(s: string) {
    forall i :: 0 <= i < |s| ==> IsSpace(s[i])
  }

  /** Neither the first nor the last character is white space. */
  predicate NoEdgeSpace(s: string) {
    s == [] || (!IsSpace(s[0]) && !IsSpace(s[|s| - 1]))
  }

  /** `r` is what remains of `s` after removing the white-space prefix of
      length `i` and an all-white-space suffix. */
  predicate StripSplit(s: string, r: string, i: nat) {
    && i + |r| <= |s|
    && s[i..i + |r|] == r
    && AllSpace(s[..i])
    && AllSpace(s[i + |r|..])
  }

  /** Drops leading white space (`str.lstrip`). */
  function TrimStart(s: string): (r: string)
    ensures |r| <= |s| && r == s[|s| - |r|..]
    ensures AllSpace(s[..|s| - |r|])
    ensures r == [] || !IsSpace(r[0])
  {
    if s != [] && IsSpace(s[0]) then
      var t := s[1..];
      var r := TrimStart(t);
      assert s[..|s| - |r|] == [s[0]] + t[..|t| - |r|];
      r
    else
      s
  }

  /** Drops trailing white space (`str.rstrip`). */
  function TrimEnd(s: string): (r: string)
    ensures |r| <= |s| && r == s[..|r|]
    ensures AllSpace(s[|r|..])
    ensures r == [] || !IsSpace(r[|r| - 1])
  {
    if s != [] && IsSpace(s[|s| - 1]) then
      var r := TrimEnd(s[..|s| - 1]);
      assert s[|r|..] == s[..|s| - 1][|r|..] + [s[|s| - 1]];
      r
    else
      s
  }

  /** Python's `s.strip()`: the longest infix of `s` that neither starts nor
      ends with white space, obtained by removing only white space. */
  function Strip(s: string): (r: string)
    ensures NoEdgeSpace(r)
    ensures exists i :: StripSplit(s, r, i)
  {
    var t := TrimStart(s);
    var r := TrimEnd(t);
    TrimsSplit(s, t, r);
    r
  }

  /** Removing a white-space prefix and then a white-space suffix leaves
      an infix with white space on both sides of it. */
  lemma TrimsSplit(s: string, t: string, r: string)
    requires |t| <= |s| && t == s[|s| - |t|..] && AllSpace(s[..|s| - |t|])
    requires |r| <= |t| && r == t[..|r|] && AllSpace(t[|r|..])
    ensures StripSplit(s, r, |s| - |t|)
  {
    var i := |s| - |t|;
    assert s[i..][..|r|] == s[i..i + |r|];
    assert s[i..][|r|..] == s[i + |r|..];
  }

  /** Only one infix meets the `strip` description: it fixes the result. */
  lemma StripUnique(s: string, r: string, i: nat)
    requires NoEdgeSpace(r) && StripSplit(s, r, i)
    ensures r == Strip(s)
  {
    var t := Strip(s);
    var j :| StripSplit(s, t, j);
    SplitsAgree(s, r, i, t, j);
    SplitsAgree(s, t, j, r, i);
  }

  /** Two `strip` descriptions of the same text: the first result is no
      longer than the second and starts no earlier. */
  lemma SplitsAgree(s: string, r: string, i: nat, t: string, j: nat)
    requires NoEdgeSpace(r) && StripSplit(s, r, i)
    requires NoEdgeSpace(t) && StripSplit(s, t, j)
    ensures |r| <= |t|
    ensures |r| == |t| ==> r == t
  {
    if r != [] {
      assert s[i] == r[0];
      assert s[i + |r| - 1] == r[|r| - 1];
    }
  }

  /** Stripping an already stripped text changes nothing. */
  lemma StripIdempotent(s: string)
    ensures Strip(Strip(s)) == Strip(s)
  {
  }
}
