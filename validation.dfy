/** The word validator (isValidWord). Its checks short-circuit in a fixed
    order; the first failing check decides the verdict. The remote dictionary
    request is an input: what the lookup service answered for the word. */
module Validation {
  import opened DailyLetters
  import opened Text

  /** What the dictionary request produced: a transport or parse error, or
      the list of suggested spellings, best first. */
  datatype Lookup = LookupError | LookupOk(entries: seq<string>)

  /** Why a word was accepted or rejected; the source reports each of these
      with its own message. */
  datatype Verdict =
    | Accepted
    | MissingLetters   // "Word does not contain the 2 letters"
    | TooShort         // "Word must be at least 3 letters long"
    | Duplicate        // "Word already used"
    | NotInLexicon     // "Word not found in dictionary": local set or lookup
    | LookupFailed     // "Error checking word. Please try again."

  /** The word contains each required letter, lower-cased (containment of each
      letter, not a count: equal letters need only one occurrence). */
  predicate HasRequiredLetters(word: string, letters: Letters)
  {
    LowerChar(letters.first) in word && LowerChar(letters.second) in word
  }

  /** The lookup confirmed the word: a non-empty answer whose first entry is
      spelled exactly as the word. */
  predicate Confirms(lookup: Lookup, word: string)
  {
    lookup.LookupOk? && |lookup.entries| > 0 && lookup.entries[0] == word
  }

  /** The checks of isValidWord in order: required letters, length, repetition
      against the words used so far, the common-word set, then the lookup. */
  function Validate(word: string, letters: Letters, used: seq<string>,
                    commonWords: set<string>, lookup: Lookup): (v: Verdict)
    ensures v == MissingLetters <==> !HasRequiredLetters(word, letters)
    ensures v == TooShort <==> HasRequiredLetters(word, letters) && |word| < 3
    ensures v == Duplicate <==>
      HasRequiredLetters(word, letters) && |word| >= 3 && word in used
    ensures v == LookupFailed <==>
      HasRequiredLetters(word, letters) && |word| >= 3 && word !in used &&
      word in commonWords && lookup == LookupError
    ensures v == NotInLexicon <==>
      HasRequiredLetters(word, letters) && |word| >= 3 && word !in used &&
      (word !in commonWords || (lookup.LookupOk? && !Confirms(lookup, word)))
  {
    if !(LowerChar(letters.first) in word) || !(LowerChar(letters.second) in word) then
      MissingLetters
    else if |word| < 3 then
      TooShort
    else if word in used then
      Duplicate
    else if word !in commonWords then
      NotInLexicon
    else
      match lookup
      case LookupError => LookupFailed
      case LookupOk(data) =>
        if |data| > 0 && data[0] == word then Accepted else NotInLexicon
  }

  /** isValidWord's boolean answer: true exactly when every check passes. */
  function IsValidWord(word: string, letters: Letters, used: seq<string>,
                       commonWords: set<string>, lookup: Lookup): (ok: bool)
    ensures ok <==>
      HasRequiredLetters(word, letters) && |word| >= 3 && word !in used &&
      word in commonWords && Confirms(lookup, word)
  {
    Validate(word, letters, used, commonWords, lookup) == Accepted
  }
}
