/** The checks that gate every model call: the gibberish heuristic, the
    moderation check and the token budget. */
module InputGuard {
  import opened Outcome
  import opened Text
  import opened Provider

  const MinMeaningfulLength := 5

  /** `is_input_meaningful`: at least five characters once stripped, at
      least one letter, and vowels making up at least 15% of the letters.
      The source's float test `vowels / letters < 0.15` is written as
      `20 * vowels < 3 * letters`. */
  function IsInputMeaningful(text: string): (r: bool)
    ensures |Strip(text)| < MinMeaningfulLength ==> !r
    ensures LetterCount(text) == 0 ==> !r
    ensures r <==> && |Strip(text)| >= MinMeaningfulLength
                   && LetterCount(text) > 0
                   && 20 * VowelCount(text) >= 3 * LetterCount(text)
  {
    if |Strip(text)| < MinMeaningfulLength then false
    else
      var alpha := AlphaLower(text);
      AlphaLowerCounts(text);
      if |alpha| == 0 then false
      else !(20 * CountVowels(alpha) < 3 * |alpha|)
  }

  /** Keyboard noise without vowels is refused. */
  lemma ConsonantsAreNotMeaningful()
    ensures !IsInputMeaningful("xkzpmrrt")
  {
    var s := "xkzpmrrt";
    assert forall i :: 0 <= i < |s| ==> 'b' <= s[i] <= 'z' && !IsVowel(s[i]);
    ConsonantCounts(s);
  }

  /** A string of lower-case ASCII consonants has one letter per character
      and no vowel. */
  lemma {:induction false} ConsonantCounts(s: string)
    requires forall i :: 0 <= i < |s| ==> 'b' <= s[i] <= 'z' && !IsVowel(s[i])
    ensures LetterCount(s) == |s| && VowelCount(s) == 0
  {
    if |s| > 0 {
      ConsonantCounts(s[1..]);
    }
  }

  /** `is_input_safe` either answers or lets a non-API exception through. */
  datatype SafetyVerdict = Verdict(safe: bool) | Raised(detail: string)

  /** `is_input_safe`: blocks without asking when there is no client or the
      input is blank, blocks on a flag or an API error, and lets any other
      exception of the moderation call propagate. */
  function IsInputSafe(client: Option<Client>, input: string): (r: SafetyVerdict)
    ensures client.None? ==> r == Verdict(false)
    ensures AllSpace(input) ==> r == Verdict(false)
    ensures r == Verdict(true) <==> client.Some? && !AllSpace(input) && client.value.moderate(input) == NotFlagged
    ensures r.Raised? <==> client.Some? && !AllSpace(input) && client.value.moderate(input).ModerationOtherError?
    ensures r.Raised? ==> r.detail == client.value.moderate(input).detail
  {
    StripEmptyIffAllSpace(input);
    if client.None? || |input| == 0 || Strip(input) == [] then Verdict(false)
    else
      match client.value.moderate(input)
      case NotFlagged => Verdict(true)
      case Flagged => Verdict(false)
      case ModerationApiError(_) => Verdict(false)
      case ModerationOtherError(detail) => Raised(detail)
  }

  /** `is_within_token_limit`: the token count against the limit, boundary
      included; when the tokenizer fails, the number of whitespace-separated
      words against three quarters of the limit. */
  function IsWithinTokenLimit(text: string, limit: nat, tokenize: string -> Option<nat>): (r: bool)
    ensures tokenize(text).Some? ==> (r <==> tokenize(text).value <= limit)
    ensures tokenize(text).None? ==> (r <==> 4 * WordStarts(text, true) <= 3 * limit)
  {
    match tokenize(text)
    case Some(n) => n <= limit
    case None =>
      WordsCountsWordStarts(text);
      4 * |Words(text)| <= 3 * limit
  }
}
