/** The daily letter generator: the two required letters of the day are
    derived from the date string "YYYY-MM-DD" by a rolling hash. Only the
    shift `hash << 5` is 32-bit arithmetic in the source; the subtraction and
    the addition around it are ordinary Number arithmetic, so the hash itself
    is not confined to 32 bits. */
module DailyLetters {

  const TwoTo31: int := 0x8000_0000
  const TwoTo32: int := 0x1_0000_0000

  /** Number.MAX_SAFE_INTEGER: below it a double holds every integer exactly. */
  const MaxSafeInteger: int := 0x1F_FFFF_FFFF_FFFF

  /** The pair of required letters, in the order the game shows them. */
  datatype Letters = Letters(first: char, second: char)

  function Abs(x: int): nat { if x < 0 then -x else x }

  /** ECMAScript ToInt32 on an integer: wrapped into [-2^31, 2^31). */
  function ToInt32(x: int): (r: int)
    ensures -TwoTo31 <= r < TwoTo31
  {
    var m := x % 0x1_0000_0000;
    if m < 0x8000_0000 then m else m - 0x1_0000_0000
  }

  /** ToInt32 moves its argument by a whole multiple of 2^32, and leaves a
      value already in the 32-bit range as it is. */
  lemma ToInt32Wraps(x: int) returns (k: int)
    ensures x == ToInt32(x) + k * 0x1_0000_0000
    ensures -TwoTo31 <= x < TwoTo31 ==> ToInt32(x) == x
  {
    var q := x / 0x1_0000_0000;
    assert x == q * 0x1_0000_0000 + x % 0x1_0000_0000;
    k := if x % 0x1_0000_0000 < 0x8000_0000 then q else q + 1;
  }

  /** `h << 5`: ToInt32 of the operand, shifted within 32 bits. */
  function ShiftLeft5(h: int): (r: int)
    ensures -TwoTo31 <= r < TwoTo31
  {
    ToInt32(ToInt32(h) * 32)
  }

  /** The shift is multiplication by 32 modulo 2^32. */
  lemma ShiftLeft5Wraps(h: int)
    ensures (32 * h - ShiftLeft5(h)) % 0x1_0000_0000 == 0
  {
    var t := ToInt32(h);
    var k := ToInt32Wraps(h);
    var j := ToInt32Wraps(t * 32);
    assert 32 * h - ShiftLeft5(h) == (j + 32 * k) * 0x1_0000_0000;
    MultipleMod(32 * h - ShiftLeft5(h), j + 32 * k);
  }

  lemma MultipleMod(x: int, q: int)
    requires x == q * 0x1_0000_0000
    ensures x % 0x1_0000_0000 == 0
  {
  }

  /** One iteration of the loop: hash = charCode + ((hash << 5) - hash). */
  function Step(h: int, c: char): int
  {
    c as int + (ShiftLeft5(h) - h)
  }

  /** The hash after folding every character of s, left to right, from 0. */
  function Hash(s: string): int
  {
    if s == [] then 0 else Step(Hash(s[..|s| - 1]), s[|s| - 1])
  }

  /** The letters for a hash: 'A' + |h| mod 26 and 'A' + |2h| mod 26. */
  function LettersOf(h: int): Letters
  {
    Letters((65 + Abs(h) % 26) as char, (65 + Abs(h * 2) % 26) as char)
  }

  /** The letters of the day whose date string is dateSeed. */
  function DailyLettersOf(dateSeed: string): Letters
  {
    LettersOf(Hash(dateSeed))
  }

  /** One step raises the magnitude of the hash by at most 2^32 - 1 (a char
      code is at most 0x10FFFF, and the shifted value lies in [-2^31, 2^31)).
      The hash itself can change by about twice its magnitude, since the step
      subtracts it. */
  lemma StepBound(h: int, c: char)
    ensures Abs(Step(h, c)) <= Abs(h) + (TwoTo32 - 1)
  {
  }

  /** The hash of n characters lies within n * (2^32 - 1) of zero. */
  lemma {:induction false} HashBound(s: string)
    ensures Abs(Hash(s)) <= |s| * (TwoTo32 - 1)
  {
    if s != [] {
      var p := s[..|s| - 1];
      HashBound(p);
      StepBound(Hash(p), s[|s| - 1]);
    }
  }

  /** For any string of at most 2^21 characters (a date string has 10) the
      hash of the whole string is a safe integer. Applied to each prefix, this
      bounds every hash value the loop holds. */
  lemma HashIsExactInDoubles(s: string)
    requires |s| <= 0x20_0000
    ensures Abs(Hash(s)) <= MaxSafeInteger
  {
    HashBound(s);
  }

  /** Both letters are upper-case A-Z; the second letter's offset from 'A' is
      even, namely twice the first offset modulo 26, so the first letter
      determines the second. */
  lemma LettersInRange(h: int)
    ensures 'A' <= LettersOf(h).first <= 'Z' && 'A' <= LettersOf(h).second <= 'Z'
    ensures LettersOf(h).second as int - 65 == 2 * (Abs(h) % 13)
    ensures LettersOf(h).second as int - 65 == (2 * (LettersOf(h).first as int - 65)) % 26
  {
    assert Abs(h * 2) == 2 * Abs(h);
    DoubleMod26(Abs(h));
  }

  /** Doubling modulo 26: |2a| mod 26 = 2 (a mod 13) = 2 (a mod 26) mod 26. */
  lemma DoubleMod26(a: nat)
    ensures (2 * a) % 26 == 2 * (a % 13)
    ensures (2 * (a % 26)) % 26 == 2 * (a % 13)
  {
    var q, r := a / 26, a % 26;
    assert a == 26 * q + r;
    if r < 13 {
      ModOf(a, 13, 2 * q, r);
      ModOf(2 * a, 26, 2 * q, 2 * r);
      ModOf(2 * r, 26, 0, 2 * r);
    } else {
      ModOf(a, 13, 2 * q + 1, r - 13);
      ModOf(2 * a, 26, 2 * q + 1, 2 * r - 26);
      ModOf(2 * r, 26, 1, 2 * r - 26);
    }
  }

  /** The remainder is the r of any x = d q + r with 0 <= r < d. */
  lemma ModOf(x: int, d: int, q: int, r: int)
    requires d == 13 || d == 26
    requires x == d * q + r && 0 <= r < d
    ensures x % d == r
  {
    if d == 13 {
      assert x == 13 * q + r;
    } else {
      assert x == 26 * q + r;
    }
  }

  /** A corollary of LettersInRange: both letters are upper-case A-Z, the
      second an even offset from 'A'. GetDailyLetters uses this narrower
      statement to keep its proof small. */
  lemma LettersAreUpperCase(h: int)
    ensures 'A' <= LettersOf(h).first <= 'Z' && 'A' <= LettersOf(h).second <= 'Z'
    ensures (LettersOf(h).second as int - 65) % 2 == 0
  {
    LettersInRange(h);
  }

  /** The two letters coincide exactly when the first one is 'A'. */
  lemma LettersCoincide(h: int)
    ensures LettersOf(h).first == LettersOf(h).second <==> LettersOf(h).first == 'A'
  {
    LettersInRange(h);
  }

  /** No day's letters are 'A' and 'T': 'T' is an odd offset from 'A'. */
  lemma NoDayHasLettersAT(dateSeed: string)
    ensures DailyLettersOf(dateSeed) != Letters('A', 'T')
  {
    LettersInRange(Hash(dateSeed));
  }

  /** ToInt32 of x, given the quotient and remainder of x by 2^32. */
  lemma ToInt32Of(x: int, q: int, m: int)
    requires x == q * 0x1_0000_0000 + m && 0 <= m < 0x1_0000_0000
    ensures ToInt32(x) == if m < 0x8000_0000 then m else m - 0x1_0000_0000
  {
  }

  /** One step of the hash, given the quotients and remainders by 2^32 of
      the shift's operand and of its product by 32. */
  lemma HashStep(s: string, h: int, v: int, q1: int, m1: int, q2: int, m2: int)
    requires s != [] && Hash(s[..|s| - 1]) == h
    requires h == q1 * 0x1_0000_0000 + m1 && 0 <= m1 < 0x1_0000_0000
    requires (if m1 < 0x8000_0000 then m1 else m1 - 0x1_0000_0000) * 32 ==
      q2 * 0x1_0000_0000 + m2 && 0 <= m2 < 0x1_0000_0000
    requires v == s[|s| - 1] as int + ((if m2 < 0x8000_0000 then m2 else m2 - 0x1_0000_0000) - h)
    ensures Hash(s) == v
  {
    ToInt32Of(h, q1, m1);
    ToInt32Of(ToInt32(h) * 32, q2, m2);
  }

  /** A worked date: the hash is far outside the 32-bit range, since only the
      shift wraps. */
  lemma HashOfOneDate()
    ensures Hash("2024-03-15") == 3681685281
    ensures DailyLettersOf("2024-03-15") == Letters('B', 'C')
  {
    assert "2"[..0] == "";
    HashStep("2", 0, 50, 0, 0, 0, 0);
    assert "20"[..1] == "2";
    HashStep("20", 50, 1598, 0, 50, 0, 1600);
    assert "202"[..2] == "20";
    HashStep("202", 1598, 49588, 0, 1598, 0, 51136);
    assert "2024"[..3] == "202";
    HashStep("2024", 49588, 1537280, 0, 49588, 0, 1586816);
    assert "2024-"[..4] == "2024";
    HashStep("2024-", 1537280, 47655725, 0, 1537280, 0, 49192960);
    assert "2024-0"[..5] == "2024-";
    HashStep("2024-0", 47655725, 1477327523, 0, 47655725, 0, 1524983200);
    assert "2024-03"[..6] == "2024-0";
    HashStep("2024-03", 1477327523, -1447486992, 0, 1477327523, 11, 29840480);
    assert "2024-03-"[..7] == "2024-03";
    HashStep("2024-03-", -1447486992, 2372543549, -1, 2847480304, -11, 925056512);
    assert "2024-03-1"[..8] == "2024-03-";
    HashStep("2024-03-1", 2372543549, -3760561260, 0, 2372543549, -15, 2906949536);
    assert "2024-03-15"[..9] == "2024-03-1";
    HashStep("2024-03-15", -3760561260, 3681685281, -1, 534406036, 3, 4216091264);
    ModOf(3681685281, 26, 141603280, 1);
    ModOf(7363370562, 26, 283206560, 2);
  }

  /** getDailyLetters from the date string onward: the hash loop and the
      letter mapping. */
  method GetDailyLetters(dateSeed: string) returns (letters: Letters)
    ensures letters == DailyLettersOf(dateSeed)
    ensures 'A' <= letters.first <= 'Z' && 'A' <= letters.second <= 'Z'
    ensures (letters.second as int - 65) % 2 == 0
  {
    var hash := 0;
    for i := 0 to |dateSeed|
      invariant hash == Hash(dateSeed[..i])
    {
      assert dateSeed[..i + 1][..i] == dateSeed[..i];
      hash := dateSeed[i] as int + (ShiftLeft5(hash) - hash);
    }
    assert dateSeed[..|dateSeed|] == dateSeed;
    letters := LettersOf(hash);
    LettersAreUpperCase(hash);
  }
}
