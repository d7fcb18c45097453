# Lettora: a verified model of the game core

Lettora is a timed, single-player word game for the browser. Each day has two
required letters, derived from the date. For 90 seconds the player submits words
that contain both letters. Each accepted word scores by its length, and a high
score is kept between sessions. This project models the game's rules engine in
Dafny and proves properties of it:

- `daily_letters.dfy` (module `DailyLetters`): `getDailyLetters`, starting from
  the `YYYY-MM-DD` date string. The hash loop is a method, proved against a
  recursive `Hash` function. `ToInt32` is applied explicitly, and only to the
  `hash << 5` shift, exactly where JavaScript applies it.
- `scoring.dfy` (module `Scoring`): `calculateWordScore`, plus the total of a list
  of word scores.
- `text.dfy` (module `Text`): the normalisation `value.toLowerCase().trim()` that
  `submitWord` applies to the input.
- `validation.dfy` (module `Validation`): `isValidWord`, as the chain of checks
  it runs in order. The dictionary request is an input value,
  `LookupError | LookupOk(entries)`. `commonWords` is a set parameter.
- `session.dfy` (module `Game`): the page's mutable state, the class `Session`.
  - Its fields are the letters, `timeLeft`, `score`, `words` and
    `gameRunning`, plus the timer-warning flag and the stored high score.
  - Its methods are `startGame`/`resetGame`, `submitWord`, the timer callback
    and `endGame`.
  - Beside the class, client methods run the clock to the end of a game and
    play a whole game with one word.

The session invariant `Session.Valid` holds in every state of the model, where
each submission and each tick is one atomic step:

- `0 <= timeLeft <= 90`;
- the warning is on exactly when `timeLeft <= 10`;
- the accepted words are distinct, normalised, contain both letters, have at
  least three characters and are common words;
- the score is twice the sum of the accepted words' scores.

## Where the code and the intended rules differ

The game's rules as intended are: the score is the sum of the accepted words'
scores, the hash is 32-bit arithmetic, a pair such as 'A','T' can be drawn, the game
ends when the clock reaches 0, an accepted word list holds no repetition, and a
lookup answer that arrives after the game is over is ignored. The model follows
the code, which differs in each of these cases.

- **Score.** An accepted word's points are added twice: once in `submitWord`
  (javascriptlettora.js:47) and again in `displayWord` (javascriptlettora.js:221).
  So the score is `2 * TotalScore(words)`, not the sum of the word scores. Playing
  "cat" gives a score of 8, not 4 (`Game.PlayOneWord`).
- **Hash width.** The hash is meant to be a 32-bit wrapping integer. In the
  code only the shift wraps; the subtraction and the addition are exact. So the
  final hash is not confined to 32 bits: "2024-03-15" hashes to 3681685281
  (`DailyLetters.HashOfOneDate`).
- **Letter pairs.** The second letter is 'A' plus twice the first letter's offset
  from 'A', modulo 26. So the first letter determines the second. The two letters
  coincide only when both are 'A'. A pair such as 'A','T' never occurs
  (`DailyLetters.NoDayHasLettersAT`).
- **End of the game.** The session is meant to end when time reaches 0. In the
  code the game ends on the tick *after* `timeLeft` reaches 0, so a fresh game
  ends on its 91st tick (`Game.FreshGameTimesOut`).
- **Late lookups.** A lookup result that arrives after the game has ended is
  meant to be discarded. The code does not re-read `gameRunning` after the
  `await` (javascriptlettora.js:46). Each submission is one atomic step here, so
  this interleaving is outside the model (see "Left out").
- **Overlapping submissions.** The duplicate check is meant to hold twice over:
  once in `submitWord` (javascriptlettora.js:38) and again in the validator
  (javascriptlettora.js:89). Two submissions of the same word that overlap
  defeat both checks. The input is cleared only after the lookup
  (javascriptlettora.js:46, 50), and nothing is pushed until
  javascriptlettora.js:48. So both submissions pass both checks, and both push
  the word. For "cat", `words` becomes `["cat", "cat"]` and the score 16. The
  model's atomic submissions cannot overlap. `Session.Valid`, including "the
  accepted words are distinct", holds for the model, but not for the code
  under such an overlap (see "Left out").

## Model

| member | source | states |
|---|---|---|
| DailyLetters.ToInt32 | javascriptlettora.js:151 | ECMAScript ToInt32 on an integer; the result lies in [-2^31, 2^31) |
| DailyLetters.ShiftLeft5 | javascriptlettora.js:151 | `h << 5`: ToInt32 of the operand times 32, wrapped again; the result lies in [-2^31, 2^31) |
| DailyLetters.Step | javascriptlettora.js:151 | one loop iteration, c + ((h << 5) − h), with the subtraction and addition exact; a definition with no contract of its own: StepBound bounds it and ShiftLeft5Wraps fixes its shift |
| DailyLetters.Hash | javascriptlettora.js:149-152 | the loop's fold, from 0, of Step over the characters; a definition with no contract of its own: GetDailyLetters proves the loop computes it, and HashBound and HashIsExactInDoubles bound it |
| DailyLetters.LettersOf | javascriptlettora.js:154-157 | the letter pair 'A' + \|h\| mod 26, 'A' + \|2h\| mod 26; a definition with no contract of its own: LettersInRange and LettersCoincide state its properties |
| DailyLetters.DailyLettersOf | javascriptlettora.js:143-160 | the letters of a date string, LettersOf of its Hash; a definition with no contract of its own: NoDayHasLettersAT and HashOfOneDate are about it |
| DailyLetters.ToInt32Wraps | javascriptlettora.js:151 | ToInt32 changes its argument by a whole multiple of 2^32 and leaves a value in [-2^31, 2^31) as it is |
| DailyLetters.ShiftLeft5Wraps | javascriptlettora.js:151 | `h << 5` equals 32·h modulo 2^32 |
| DailyLetters.StepBound | javascriptlettora.js:151 | one loop iteration raises \|hash\| by at most 2^32 − 1 |
| DailyLetters.HashBound | javascriptlettora.js:149-152 | the hash of n characters lies within n·(2^32 − 1) of zero |
| DailyLetters.HashIsExactInDoubles | javascriptlettora.js:149-152 | for strings of up to 2^21 characters the hash, and so the hash of every prefix the loop passes through, is a safe integer |
| DailyLetters.GetDailyLetters | javascriptlettora.js:143-160 | the loop's result is the letter pair of the recursive hash of the date string; both letters are A-Z and the second is an even offset from 'A' |
| DailyLetters.LettersInRange | javascriptlettora.js:154-157 | both letters are A-Z; the second letter's offset is 2·(\|h\| mod 13), which equals twice the first offset modulo 26 |
| DailyLetters.DoubleMod26 | javascriptlettora.js:155-156 | (2a) mod 26 = 2·(a mod 13) = (2·(a mod 26)) mod 26 |
| DailyLetters.LettersAreUpperCase | javascriptlettora.js:154-157 | a corollary of LettersInRange: both letters are upper-case A-Z, the second an even offset from 'A' |
| DailyLetters.LettersCoincide | javascriptlettora.js:154-157 | the two letters are equal exactly when the first is 'A' |
| DailyLetters.NoDayHasLettersAT | javascriptlettora.js:143-160 | no date string yields the pair 'A','T' |
| DailyLetters.HashStep | javascriptlettora.js:151 | one iteration, given the quotients by 2^32, yields the stated hash |
| DailyLetters.HashOfOneDate | javascriptlettora.js:149-157 | "2024-03-15" hashes to 3681685281, outside the 32-bit range, and its letters are 'B','C' |
| Scoring.WordScore | javascriptlettora.js:164 | every word scores at least 1 |
| Scoring.FloorOfThreeHalves | javascriptlettora.js:164 | floor(n·1.5) is the integer quotient 3n/2 |
| Scoring.ScoreFormula | javascriptlettora.js:164 | the score is max(1, 3·length/2) in integer division |
| Scoring.ScoreMonotone | javascriptlettora.js:164 | a longer word never scores less |
| Scoring.ScoreExamples | javascriptlettora.js:164 | "cat" scores 4, a two-letter word 3, the empty word 1 |
| Scoring.TotalScore | javascriptlettora.js:47 | the total of n word scores is at least n |
| Scoring.TotalScoreAppend | javascriptlettora.js:47-48 | appending a word adds exactly its score to the total |
| Text.LowerChar | javascriptlettora.js:35 | the result is never an upper-case letter; an upper-case letter maps to the lower-case letter 32 code points above it; any other character is unchanged |
| Text.ToLower | javascriptlettora.js:35 | lower-casing keeps the length |
| Text.ToLowerAt | javascriptlettora.js:35 | each character of the lower-cased string is the lower-cased character at that position |
| Text.ToLowerOfLower | javascriptlettora.js:35 | lower-casing a string without upper-case letters changes nothing |
| Text.IsWhiteSpace | javascriptlettora.js:35 | the characters `trim` removes: TAB, LF, VT, FF, CR, SPACE, NBSP, U+1680, U+2000-U+200A, LS, PS, U+202F, U+205F, U+3000 and ZWNBSP; a predicate with no contract of its own |
| Text.TrimStart | javascriptlettora.js:35 | leading white space removed; the result is no longer than the input (TrimStartSpec states the rest) |
| Text.TrimEnd | javascriptlettora.js:35 | trailing white space removed; the result is no longer than the input (TrimEndSpec states the rest) |
| Text.Trim | javascriptlettora.js:35 | `trim`, as TrimEnd after TrimStart; a definition with no contract of its own: TrimSpec and TrimDropsWhiteSpace state its properties |
| Text.TrimStartSpec | javascriptlettora.js:35 | trimming the start keeps a suffix, drops only white space, and leaves no white space in front |
| Text.TrimEndSpec | javascriptlettora.js:35 | trimming the end keeps a prefix, drops only white space, and leaves no white space at the end |
| Text.TrimSpec | javascriptlettora.js:35 | trim keeps a contiguous slice of the input that neither starts nor ends with white space |
| Text.TrimDropsWhiteSpace | javascriptlettora.js:35 | what trim drops on either side of that slice is white space |
| Text.TrimOfTrimmed | javascriptlettora.js:35 | trimming a string with no white space at either end changes nothing |
| Text.Normalize | javascriptlettora.js:35 | the normalised word has no upper-case letter and no white space at either end |
| Text.NormalizedIsFixed | javascriptlettora.js:35 | a normalised word normalises to itself |
| Text.NormalizeIdempotent | javascriptlettora.js:35 | normalising twice is normalising once |
| Text.NormalizeExample | javascriptlettora.js:35 | " Cat " normalises to "cat" |
| Validation.HasRequiredLetters | javascriptlettora.js:77 | the word contains each required letter, lower-cased, as a character; a predicate with no contract of its own, used by Validate's and IsValidWord's contracts |
| Validation.Confirms | javascriptlettora.js:105 | the lookup succeeded with a non-empty answer whose first entry is exactly the word; a predicate with no contract of its own, used by Validate's and IsValidWord's contracts |
| Validation.Validate | javascriptlettora.js:75-116 | for each verdict, the exact condition under which the checks, run in source order, produce it: a missing letter is rejected whatever the other checks would say; a short word is rejected only when both letters are present; an error lookup gives LookupFailed only for a common word that passed the earlier checks; otherwise NotInLexicon for an uncommon word or an unconfirming lookup |
| Validation.IsValidWord | javascriptlettora.js:75-116 | true exactly when both letters are present, the length is at least 3, the word is unused, it is a common word and the lookup confirmed it; so a lookup error always gives false |
| Game.AcceptKeepsWordList | javascriptlettora.js:46-48 | appending a new admissible word and adding its score twice keeps the words distinct and admissible and the score equal to twice the total |
| Game.SubmitOutcome | javascriptlettora.js:31-58 | nothing happens exactly when no game runs; a word is accepted exactly when a game runs, the word is unused and isValidWord holds, and it then earns its word score; a word is rejected as a duplicate exactly when a game runs and the word is already used, before validation; any other rejection carries the validator's verdict |
| Game.Session.constructor | javascriptlettora.js:1-6 | page load: the letters of the date, 90 seconds, no score, no words, no game running, no warning, the stored high score |
| Game.Session.ResetGame | javascriptlettora.js:245-257 | 90 seconds, no score, no words, warning off; running state and high score untouched; the invariant holds |
| Game.Session.StartGame | javascriptlettora.js:13-29 | reset, then running, with the letters unchanged; the invariant holds |
| Game.Session.SubmitWord | javascriptlettora.js:31-58 | the outcome is SubmitOutcome of the normalised input; an accepted word is appended and the score grows by twice its points; otherwise words and score are unchanged; time, running state, warning and high score never change; the invariant is kept |
| Game.Session.Tick | javascriptlettora.js:181-191 | with a game running and time left, one second passes and the warning comes on at 10 seconds or fewer; otherwise the game ends with the high score raised to the score if greater; words and score are unchanged; the invariant is kept |
| Game.Session.EndGame | javascriptlettora.js:232-243 | the game stops; the high score becomes max(old, score) and is written only when the score is strictly greater, which is also what the result reports; nothing else changes |
| Game.RunClock | javascriptlettora.js:180-192 | a running game with t seconds left ends on tick t + 1, with the clock at 0, the warning on, the score and words unchanged and the high score max(old, score) |
| Game.FreshGameTimesOut | javascriptlettora.js:181-191 | a freshly started game takes 91 ticks to end and ends with score 0 and no words |
| Game.PlayOneWord | javascriptlettora.js:31-58 | in a game whose letters "cat" contains, "cat" is accepted with 4 points and the score becomes 8; " Cat " is then rejected as a duplicate; the game ends with score 8 |

## Left out

- The date computation (javascriptlettora.js:144-147): `new Date`, the UTC−8 offset and `toISOString` are library calls. The model starts from the date string.
- `charCodeAt` counts UTF-16 code units, while the model reads one code point per character. Characters outside the Basic Multilingual Plane therefore hash differently. A date string is ASCII.
- Scoring.WordScore: `word.length` (javascriptlettora.js:164) counts UTF-16 code units, while the model's `|word|` counts code points. They differ for characters outside the Basic Multilingual Plane. For example, "😀" has length 2 in the code and scores 3, but the model scores it 1.
- Validation.Validate: the length check (javascriptlettora.js:83) uses UTF-16 length too, so it has the same difference. The code lets "a😀" (length 3) through, but the model rejects it as TooShort.
- The dictionary request (javascriptlettora.js:102-103): the request, JSON parsing, and the unencoded query string are network I/O. The model takes the lookup's answer, or its failure, as an input.
- `commonWords` is declared outside javascriptlettora.js and is not part of this model. It is a set parameter with no fixed contents.
- `localStorage` (javascriptlettora.js:228, 237-239) is held as an int field. The model skips the string-to-number coercion in the comparison and the fact that a stored string persists across page loads.
- Timers and interleaving: `setInterval`/`clearInterval` scheduling is not modelled. `Tick` is the callback body, callable in any state.
- Game.Session.SubmitWord: each submission is one atomic step. The model does not capture a tick ending the game while a lookup is awaited, after which the code still applies the late result because it does not recheck `gameRunning` (javascriptlettora.js:46). Nor does it capture two overlapping submissions of the same word. Both pass the duplicate checks (javascriptlettora.js:38, 89) before either pushes (javascriptlettora.js:48), so the code ends with the word listed twice and its points counted four times. Under such an overlap `Session.Valid` does not hold of the code.
- Text.LowerChar: `toLowerCase` is modelled for the ASCII letters A-Z only; other upper-case characters are not lowered.
- Messages and presentation are not modelled: `showError`, `showPopupMessage`, the `invalid` class, clearing the input, the score pop-up, the progress bar, the success flash and the end screen. The model also ignores that the message at javascriptlettora.js:54 replaces the validator's own message.
- The particle and confetti effects (javascriptlettora.js:259-313) use randomness and floating-point geometry and are not modelled.
- DailyLetters.HashIsExactInDoubles: bounds only the hash values themselves. The model does not bound the intermediate `(hash << 5) - hash` (javascriptlettora.js:151) or `hash * 2` (javascriptlettora.js:156). For a date string both are far below 2^53, and doubling a double is exact.
- Scoring.WordScore: lengths are exact integers. Doubles compute `length * 1.5` exactly for every realistic length.
