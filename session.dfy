/** The game session: the page's module-level state (the daily letters, the
    time left, the score, the accepted words, whether a game is running) plus
    the timer-warning flag and the stored high score, and the transitions the
    page drives: starting a game, submitting a word, a timer tick, and the end
    of the game.

    Each submission and each tick is one atomic step here. In the source a
    submission awaits the dictionary lookup (javascriptlettora.js:46) and does
    not re-read gameRunning when it resumes, so a verdict that arrives after
    the game has ended is still applied; interleavings of that kind are not
    part of this model. */
module Game {
  import opened DailyLetters
  import opened Scoring
  import opened Text
  import opened Validation

  /** Length of a game, in one-second ticks. */
  const SessionSeconds: int := 90

  /** The timer turns to its warning style at this many seconds or fewer. */
  const WarningSeconds: int := 10

  /** What a submission led to; the points are those shown next to the word. */
  datatype Outcome = Ignored | Rejected(reason: Verdict) | WordAccepted(points: int)

  predicate NoDuplicates(words: seq<string>)
  {
    forall i, j :: 0 <= i < j < |words| ==> words[i] != words[j]
  }

  /** A word submitWord can have accepted: normalised, with the required
      letters, at least three characters, and a common word. */
  predicate Admissible(word: string, letters: Letters, commonWords: set<string>)
  {
    IsNormalized(word) && HasRequiredLetters(word, letters) && |word| >= 3 && word in commonWords
  }

  predicate AllAdmissible(words: seq<string>, letters: Letters, commonWords: set<string>)
  {
    forall i :: 0 <= i < |words| ==> Admissible(words[i], letters, commonWords)
  }

  /** The word-list part of the session invariant: the accepted words are
      distinct and admissible, and the score counts each of them twice. */
  predicate WordList(words: seq<string>, score: int, letters: Letters, commonWords: set<string>)
  {
    && NoDuplicates(words)
    && AllAdmissible(words, letters, commonWords)
    && score == 2 * TotalScore(words)
  }

  /** Accepting a new admissible word, appending it and adding its score
      twice, keeps the word-list invariant. */
  lemma AcceptKeepsWordList(words: seq<string>, score: int, word: string,
                            letters: Letters, commonWords: set<string>)
    requires WordList(words, score, letters, commonWords)
    requires word !in words && Admissible(word, letters, commonWords)
    ensures WordList(words + [word], score + 2 * WordScore(word), letters, commonWords)
  {
    var ws := words + [word];
    forall i, j | 0 <= i < j < |ws| ensures ws[i] != ws[j] {
      if j == |words| {
        assert ws[i] == words[i];
      }
    }
    assert forall i :: 0 <= i < |words| ==> ws[i] == words[i];
    TotalScoreAppend(words, word);
  }

  /** The decision submitWord reaches for a normalised word: nothing while
      no game runs; a word already used is turned away before validation
      (javascriptlettora.js:38), so the validator's own repetition check
      never decides here; otherwise the validator's verdict, with the points
      shown for an accepted word. */
  function SubmitOutcome(running: bool, used: seq<string>, word: string, letters: Letters,
                         commonWords: set<string>, lookup: Lookup): (r: Outcome)
    ensures r == Ignored <==> !running
    ensures r.WordAccepted? <==>
      running && word !in used && IsValidWord(word, letters, used, commonWords, lookup)
    ensures r.WordAccepted? ==> r.points == WordScore(word)
    ensures r == Rejected(Duplicate) <==> running && word in used
    ensures r.Rejected? && r.reason != Duplicate ==>
      r.reason == Validate(word, letters, used, commonWords, lookup)
  {
    if !running then Ignored
    else if word in used then Rejected(Duplicate)
    else
      var verdict := Validate(word, letters, used, commonWords, lookup);
      if verdict == Accepted then WordAccepted(WordScore(word)) else Rejected(verdict)
  }

  class Session {
    const letters: Letters
    const commonWords: set<string>
    var timeLeft: int
    var score: int
    var words: seq<string>
    var gameRunning: bool
    /** The "timer-warning" class on the timer element. */
    var timerWarning: bool
    /** The value stored under "lettoraHighScore" (0 when absent). */
    var highScore: int

    /** The session invariant. The accepted words are distinct, and each is
        normalised, has the required letters, at least three characters and is a common
        word; each accepted word is counted twice in the score; the warning
        is on exactly when ten seconds or fewer are left. */
    ghost predicate Valid()
      reads this
    {
      && 0 <= timeLeft <= SessionSeconds
      && (timerWarning <==> timeLeft <= WarningSeconds)
      && WordList(words, score, letters, commonWords)
    }

    /** Page load: the letters of the day, a full clock, no game running. */
    constructor (dateSeed: string, commonWords: set<string>, storedHighScore: int)
      ensures Valid()
      ensures letters == DailyLettersOf(dateSeed) && this.commonWords == commonWords
      ensures timeLeft == SessionSeconds && score == 0 && words == []
      ensures !gameRunning && !timerWarning && highScore == storedHighScore
    {
      var daily := GetDailyLetters(dateSeed);
      letters := daily;
      this.commonWords := commonWords;
      timeLeft := SessionSeconds;
      score := 0;
      words := [];
      gameRunning := false;
      timerWarning := false;
      highScore := storedHighScore;
    }

    /** resetGame: a full clock, no score, no words, no warning. */
    method ResetGame()
      requires Valid()
      modifies this
      ensures Valid()
      ensures timeLeft == SessionSeconds && score == 0 && words == [] && !timerWarning
      ensures gameRunning == old(gameRunning) && highScore == old(highScore)
    {
      timeLeft := SessionSeconds;
      score := 0;
      words := [];
      timerWarning := false;
    }

    /** startGame: reset, then run. The letters stay those of the page load. */
    method StartGame()
      requires Valid()
      modifies this
      ensures Valid()
      ensures timeLeft == SessionSeconds && score == 0 && words == [] && !timerWarning
      ensures gameRunning && highScore == old(highScore)
    {
      ResetGame();
      gameRunning := true;
    }

    /** submitWord: the input is normalised and the decision taken as
        SubmitOutcome says; an accepted word is appended and its score added
        twice (once in submitWord, once more in displayWord). Time, running
        state, warning and high score never change. */
    method SubmitWord(input: string, lookup: Lookup) returns (outcome: Outcome)
      requires Valid()
      modifies this
      ensures Valid()
      ensures outcome == SubmitOutcome(old(gameRunning), old(words), Normalize(input),
                                       letters, commonWords, lookup)
      ensures words == if outcome.WordAccepted? then old(words) + [Normalize(input)] else old(words)
      ensures score == if outcome.WordAccepted? then old(score) + 2 * outcome.points else old(score)
      ensures timeLeft == old(timeLeft) && gameRunning == old(gameRunning)
      ensures timerWarning == old(timerWarning) && highScore == old(highScore)
    {
      if !gameRunning {
        return Ignored;
      }
      var word := Normalize(input);
      if word in words {
        return Rejected(Duplicate);
      }
      var verdict := Validate(word, letters, words, commonWords, lookup);
      if verdict == Accepted {
        var points := WordScore(word);
        AcceptKeepsWordList(words, score, word, letters, commonWords);
        score := score + points;
        words := words + [word];
        score := score + points;
        outcome := WordAccepted(points);
      } else {
        outcome := Rejected(verdict);
      }
    }

    /** The timer callback: while a game runs with time left, one second
        passes and the warning comes on at ten seconds or fewer (nothing but a
        reset turns it off); otherwise the game ends. */
    method Tick()
      requires Valid()
      modifies this
      ensures Valid()
      ensures words == old(words) && score == old(score)
      ensures old(timeLeft > 0 && gameRunning) ==>
        timeLeft == old(timeLeft) - 1 && gameRunning && highScore == old(highScore) &&
        timerWarning == (old(timerWarning) || timeLeft <= WarningSeconds)
      ensures !old(timeLeft > 0 && gameRunning) ==>
        timeLeft == old(timeLeft) && !gameRunning && timerWarning == old(timerWarning) &&
        highScore == Max(old(highScore), score)
    {
      if timeLeft > 0 && gameRunning {
        timeLeft := timeLeft - 1;
        if timeLeft <= WarningSeconds {
          timerWarning := true;
        }
      } else {
        var newHighScore := EndGame();
      }
    }

    /** endGame: the game stops; the stored high score is overwritten only
        by a strictly greater score, and the result says whether it was. */
    method EndGame() returns (newHighScore: bool)
      requires Valid()
      modifies this
      ensures Valid()
      ensures !gameRunning
      ensures newHighScore <==> old(score) > old(highScore)
      ensures highScore == Max(old(highScore), score)
      ensures !newHighScore ==> highScore == old(highScore)
      ensures timeLeft == old(timeLeft) && score == old(score) && words == old(words)
      ensures timerWarning == old(timerWarning)
    {
      gameRunning := false;
      newHighScore := score > highScore;
      if newHighScore {
        highScore := score;
      }
    }
  }

  /** The interval driving a running game: the clock counts down to 0 with the
      game still running, and the game ends on the tick after that, so a game
      with t seconds left ends on tick t + 1. */
  method RunClock(s: Session) returns (ticks: nat)
    requires s.Valid() && s.gameRunning
    modifies s
    ensures s.Valid()
    ensures ticks == old(s.timeLeft) + 1
    ensures s.timeLeft == 0 && !s.gameRunning && s.timerWarning
    ensures s.score == old(s.score) && s.words == old(s.words)
    ensures s.highScore == Max(old(s.highScore), s.score)
  {
    ticks := 0;
    while s.gameRunning
      invariant s.Valid()
      invariant s.score == old(s.score) && s.words == old(s.words)
      invariant s.gameRunning ==> ticks <= old(s.timeLeft) && s.timeLeft == old(s.timeLeft) - ticks
      invariant s.gameRunning ==> s.highScore == old(s.highScore)
      invariant !s.gameRunning ==>
        ticks == old(s.timeLeft) + 1 && s.timeLeft == 0 && s.highScore == Max(old(s.highScore), s.score)
      decreases s.timeLeft + (if s.gameRunning then 1 else 0)
    {
      s.Tick();
      ticks := ticks + 1;
    }
  }

  /** A fresh game lasts 90 ticks with the game running and ends on the 91st,
      with a score of 0 and no words. */
  method FreshGameTimesOut(s: Session) returns (ticks: nat)
    requires s.Valid()
    modifies s
    ensures s.Valid() && ticks == SessionSeconds + 1
    ensures s.timeLeft == 0 && !s.gameRunning && s.timerWarning
    ensures s.score == 0 && s.words == [] && s.highScore == Max(old(s.highScore), 0)
  {
    s.StartGame();
    ticks := RunClock(s);
  }

  /** A whole game with one word: "cat" is accepted and shown with 4 points,
      the score rising by 8; submitting " Cat " afterwards is turned away as a
      duplicate, since it normalises to "cat"; the clock then runs out with a
      final score of 8. */
  method PlayOneWord(s: Session) returns (first: Outcome, second: Outcome)
    requires s.Valid()
    requires HasRequiredLetters("cat", s.letters) && "cat" in s.commonWords
    modifies s
    ensures first == WordAccepted(4) && second == Rejected(Duplicate)
    ensures s.words == ["cat"] && s.score == 8 && !s.gameRunning
    ensures s.highScore == Max(old(s.highScore), 8)
  {
    NormalizeExample();
    NormalizeIdempotent(" Cat ");
    ScoreExamples();
    var lookup := LookupOk(["cat"]);
    assert IsValidWord("cat", s.letters, [], s.commonWords, lookup);
    s.StartGame();
    first := s.SubmitWord("cat", lookup);
    assert s.words == ["cat"];
    second := s.SubmitWord(" Cat ", lookup);
    var ticks := RunClock(s);
  }
}
