/** Normalisation of a submitted word: `value.toLowerCase().trim()`.
    Lower-casing is modelled on the ASCII letters A-Z; trimming removes the
    characters ECMAScript counts as WhiteSpace or LineTerminator. */
module Text {

  predicate IsUpper(c: char) { 'A' <= c <= 'Z' }

  /** toLowerCase on one character (ASCII letters only). */
  function LowerChar(c: char): (r: char)
    ensures !IsUpper(r)
    ensures !IsUpper(c) ==> r == c
    ensures IsUpper(c) ==> 'a' <= r <= 'z' && r as int - c as int == 'a' as int - 'A' as int
  {
    if IsUpper(c) then (c as int + 32) as char else c
  }

  /** toLowerCase on a string, character by character. */
  function ToLower(s: string): (r: string)
    ensures |r| == |s|
  {
    if s == [] then [] else [LowerChar(s[0])] + ToLower(s[1..])
  }

  /** Each character of the lower-cased string is the lower-cased character. */
  lemma {:induction false} ToLowerAt(s: string)
    ensures forall i :: 0 <= i < |s| ==> ToLower(s)[i] == LowerChar(s[i])
  {
    if s != [] {
      ToLowerAt(s[1..]);
      assert forall i :: 1 <= i < |s| ==> ToLower(s)[i] == ToLower(s[1..])[i - 1];
    }
  }

  /** The ECMAScript WhiteSpace and LineTerminator code points: TAB, LF, VT,
      FF, CR, SPACE, NBSP, ZWNBSP, LS, PS and the Space_Separator category. */
  predicate IsWhiteSpace(c: char)
  {
    c == '\t' || c == '\n' || c == '\U{000B}' || c == '\U{000C}' || c == '\r' ||
    c == ' ' || c == '\U{00A0}' || c == '\U{1680}' ||
    ('\U{2000}' <= c <= '\U{200A}') ||
    c == '\U{2028}' || c == '\U{2029}' || c == '\U{202F}' || c == '\U{205F}' ||
    c == '\U{3000}' || c == '\U{FEFF}'
  }

  /** trimStart: leading white space removed. */
  function TrimStart(s: string): (r: string)
    ensures |r| <= |s|
  {
    if s != [] && IsWhiteSpace(s[0]) then TrimStart(s[1..]) else s
  }

  /** TrimStart keeps a suffix of s, drops only white space, and leaves no
      white space in front. */
  lemma {:induction false} TrimStartSpec(s: string)
    ensures TrimStart(s) == s[|s| - |TrimStart(s)|..]
    ensures forall i :: 0 <= i < |s| - |TrimStart(s)| ==> IsWhiteSpace(s[i])
    ensures TrimStart(s) == [] || !IsWhiteSpace(TrimStart(s)[0])
  {
    if s != [] && IsWhiteSpace(s[0]) {
      TrimStartSpec(s[1..]);
      assert s[1..][|s| - 1 - |TrimStart(s)|..] == s[|s| - |TrimStart(s)|..];
    }
  }

  /** trimEnd: trailing white space removed. */
  function TrimEnd(s: string): (r: string)
    ensures |r| <= |s|
  {
    if s != [] && IsWhiteSpace(s[|s| - 1]) then TrimEnd(s[..|s| - 1]) else s
  }

  /** TrimEnd keeps a prefix of s, drops only white space, and leaves no
      white space at the end. */
  lemma {:induction false} TrimEndSpec(s: string)
    ensures TrimEnd(s) == s[..|TrimEnd(s)|]
    ensures forall i :: |TrimEnd(s)| <= i < |s| ==> IsWhiteSpace(s[i])
    ensures TrimEnd(s) == [] || !IsWhiteSpace(TrimEnd(s)[|TrimEnd(s)| - 1])
  {
    if s != [] && IsWhiteSpace(s[|s| - 1]) {
      TrimEndSpec(s[..|s| - 1]);
      assert s[..|s| - 1][..|TrimEnd(s)|] == s[..|TrimEnd(s)|];
    }
  }

  /** String.prototype.trim: white space removed at both ends. */
  function Trim(s: string): (r: string)
  {
    TrimEnd(TrimStart(s))
  }

  /** Trim keeps a slice of s that neither starts nor ends with white
      space. */
  lemma TrimSpec(s: string)
    ensures var k := |s| - |TrimStart(s)|;
      k + |Trim(s)| <= |s| && Trim(s) == s[k..k + |Trim(s)|]
    ensures Trim(s) == [] || (!IsWhiteSpace(Trim(s)[0]) && !IsWhiteSpace(Trim(s)[|Trim(s)| - 1]))
  {
    var t := TrimStart(s);
    TrimStartSpec(s);
    TrimEndSpec(t);
    var k := |s| - |t|;
    var r := TrimEnd(t);
    assert r == t[..|r|] == s[k..][..|r|];
    assert r == s[k..k + |r|];
    if r != [] {
      assert r[0] == t[0];
    }
  }

  /** What Trim drops from s, before and after the slice it keeps, is white
      space. */
  lemma TrimDropsWhiteSpace(s: string)
    ensures forall i :: 0 <= i < |s| - |TrimStart(s)| ==> IsWhiteSpace(s[i])
    ensures forall i :: |s| - |TrimStart(s)| + |Trim(s)| <= i < |s| ==> IsWhiteSpace(s[i])
  {
    var t := TrimStart(s);
    TrimStartSpec(s);
    TrimEndSpec(t);
    var k := |s| - |t|;
    forall i | k + |Trim(s)| <= i < |s|
      ensures IsWhiteSpace(s[i])
    {
      assert s[i] == t[i - k];
    }
  }

  /** A word as normalisation leaves it: no upper-case letter, and no white
      space at either end. */
  predicate IsNormalized(word: string)
  {
    && (forall i :: 0 <= i < |word| ==> !IsUpper(word[i]))
    && (word == [] || (!IsWhiteSpace(word[0]) && !IsWhiteSpace(word[|word| - 1])))
  }

  /** The normalised word of the input field: lower-cased, then trimmed. */
  function Normalize(input: string): (word: string)
    ensures IsNormalized(word)
  {
    var lower := ToLower(input);
    ToLowerAt(input);
    TrimSpec(lower);
    var k := |lower| - |TrimStart(lower)|;
    assert forall i :: 0 <= i < |Trim(lower)| ==> Trim(lower)[i] == lower[k + i];
    Trim(lower)
  }

  /** Lower-casing a string that has no upper-case letters changes nothing. */
  lemma {:induction false} ToLowerOfLower(s: string)
    requires forall i :: 0 <= i < |s| ==> !IsUpper(s[i])
    ensures ToLower(s) == s
  {
    if s != [] {
      ToLowerOfLower(s[1..]);
      assert s == [s[0]] + s[1..];
    }
  }

  /** Trimming a string that neither starts nor ends with white space
      changes nothing. */
  lemma TrimOfTrimmed(s: string)
    requires s == [] || (!IsWhiteSpace(s[0]) && !IsWhiteSpace(s[|s| - 1]))
    ensures Trim(s) == s
  {
    assert TrimStart(s) == s;
  }

  /** Normalisation leaves a normalised word as it is; in particular
      normalising twice is normalising once. */
  lemma NormalizedIsFixed(word: string)
    requires IsNormalized(word)
    ensures Normalize(word) == word
  {
    ToLowerOfLower(word);
    TrimOfTrimmed(word);
  }

  lemma NormalizeIdempotent(input: string)
    ensures Normalize(Normalize(input)) == Normalize(input)
  {
    NormalizedIsFixed(Normalize(input));
  }

  /** A worked input: surrounding spaces go, the capital is lowered. */
  lemma NormalizeExample()
    ensures Normalize(" Cat ") == "cat"
  {
    var lower := ToLower(" Cat ");
    assert lower == " cat " by {
      assert |lower| == 5;
      assert lower[0] == ' ' && lower[1] == 'c' && lower[2] == 'a';
      assert lower[3] == 't' && lower[4] == ' ';
    }
    assert !IsWhiteSpace('c') && !IsWhiteSpace('t');
    assert lower[1..] == "cat ";
    assert TrimStart("cat ") == "cat ";
    assert TrimStart(lower) == "cat ";
    assert "cat "[..3] == "cat";
    assert TrimEnd("cat") == "cat";
    assert TrimEnd("cat ") == "cat";
  }
}
