/** The scorer: the points a word is worth depend on its length only. */
module Scoring {

  function Max(a: int, b: int): (r: int)
    ensures r >= a && r >= b && (r == a || r == b)
  {
    if a < b then b else a
  }

  /** calculateWordScore: the larger of 1 and floor(length * 1.5), computed
      as the source computes it, on a real product. */
  function WordScore(word: string): (r: int)
    ensures r >= 1
  {
    Max(1, (|word| as real * 1.5).Floor)
  }

  /** floor(n * 1.5) is the integer quotient 3n / 2. */
  lemma FloorOfThreeHalves(n: nat)
    ensures (n as real * 1.5).Floor == (3 * n) / 2
  {
    var q, r := (3 * n) / 2, (3 * n) % 2;
    assert 3 * n == 2 * q + r && 0 <= r < 2;
    assert n as real * 1.5 == q as real + r as real / 2.0;
    assert q as real <= n as real * 1.5 < q as real + 1.0;
  }

  /** The score in integer terms: max(1, 3 * length / 2). */
  lemma ScoreFormula(word: string)
    ensures WordScore(word) == Max(1, (3 * |word|) / 2)
  {
    FloorOfThreeHalves(|word|);
  }

  /** A longer word never scores less. */
  lemma ScoreMonotone(shorter: string, longer: string)
    requires |shorter| <= |longer|
    ensures WordScore(shorter) <= WordScore(longer)
  {
    ScoreFormula(shorter);
    ScoreFormula(longer);
  }

  /** Worked values: a three-letter word scores 4, a two-letter one 3. */
  lemma ScoreExamples()
    ensures WordScore("cat") == 4
    ensures WordScore("ab") == 3
    ensures WordScore("") == 1
  {
    ScoreFormula("cat");
    ScoreFormula("ab");
    ScoreFormula("");
  }

  /** The sum of the word scores of a list of words. */
  function TotalScore(words: seq<string>): (r: int)
    ensures r >= |words|
  {
    if words == [] then 0 else WordScore(words[0]) + TotalScore(words[1..])
  }

  /** Appending a word adds exactly its score to the total. */
  lemma {:induction false} TotalScoreAppend(words: seq<string>, word: string)
    ensures TotalScore(words + [word]) == TotalScore(words) + WordScore(word)
  {
    if words == [] {
      assert [] + [word] == [word];
      assert [word][1..] == [];
    } else {
      assert (words + [word])[1..] == words[1..] + [word];
      TotalScoreAppend(words[1..], word);
    }
  }
}
