/**
 * components/forms/KatakanaNameInput.tsx: the furigana field with its
 * transliteration helper. The source language sent to the transliterator is
 * guessed from the first character of the full name; a returned suggestion
 * can be accepted into the katakana field or dismissed. The network call
 * becomes a parameter (`TransliterateResponse`).
 */
module KatakanaInput {
  import opened ResumeTypes

  const MYANMAR: string := "Myanmar"
  const ENGLISH: string := "English"
  const CHINESE: string := "Chinese"

  predicate InMyanmarBlock(c: char) { 0x1000 <= c as int <= 0x109F }
  predicate IsAsciiLetter(c: char) { ('A' <= c <= 'Z') || ('a' <= c <= 'z') }
  predicate InCjkBlock(c: char) { 0x4E00 <= c as int <= 0x9FFF }

  /** The three anchored one-character tests in order, with English as the fallback. */
  function DetectLanguage(name: string): (r: string)
    ensures r == MYANMAR || r == ENGLISH || r == CHINESE
    ensures r == MYANMAR <==> |name| > 0 && InMyanmarBlock(name[0])
    ensures r == CHINESE <==> |name| > 0 && InCjkBlock(name[0])
    ensures r == ENGLISH <==> name == [] || !(InMyanmarBlock(name[0]) || InCjkBlock(name[0]))
  {
    if |name| > 0 && InMyanmarBlock(name[0]) then MYANMAR
    else if |name| > 0 && IsAsciiLetter(name[0]) then ENGLISH
    else if |name| > 0 && InCjkBlock(name[0]) then CHINESE
    else ENGLISH
  }

  /** Only the first character is looked at. */
  lemma OnlyFirstCharacterMatters(a: string, b: string)
    requires |a| > 0 && |b| > 0 && a[0] == b[0]
    ensures DetectLanguage(a) == DetectLanguage(b)
  {
  }

  /** The request body the helper posts. */
  datatype TransliterateRequest = TransliterateRequest(name: string, sourceLanguage: string)

  /**
   * `Ok` carries the `katakana` key of the response body (None when the key
   * is missing or null); `NotOk` is a non-ok status, `NetworkError` a fetch
   * or JSON failure.
   */
  datatype TransliterateResponse = Ok(katakana: Option<string>) | NotOk | NetworkError

  class KatakanaNameInput {
    /** The form's `personalInfo.katakanaName`. */
    var katakanaName: string
    var suggestion: Option<string>
    var isTranslating: bool

    constructor (katakanaName: string)
      ensures this.katakanaName == katakanaName && suggestion.None? && !isTranslating
    {
      this.katakanaName := katakanaName;
      suggestion := None;
      isTranslating := false;
    }

    /**
     * The wand button. With an empty full name nothing is sent and nothing
     * changes. Otherwise the name goes out with its guessed language; an ok
     * answer replaces the suggestion, any failure keeps the old one; the
     * katakana field itself is never written here.
     */
    method Transliterate(fullName: string, response: TransliterateResponse) returns (sent: Option<TransliterateRequest>)
      modifies this
      ensures fullName == "" ==>
        sent.None? && katakanaName == old(katakanaName) && suggestion == old(suggestion)
        && isTranslating == old(isTranslating)
      ensures fullName != "" ==>
        sent == Some(TransliterateRequest(fullName, DetectLanguage(fullName)))
        && !isTranslating && katakanaName == old(katakanaName)
        && suggestion == (if response.Ok? then response.katakana else old(suggestion))
    {
      if fullName == "" {
        return None;
      }
      isTranslating := true;
      sent := Some(TransliterateRequest(fullName, DetectLanguage(fullName)));
      if response.Ok? {
        suggestion := response.katakana;
      }
      isTranslating := false;
    }

    /** "Use": a non-empty suggestion moves into the field and is cleared; otherwise nothing changes. */
    method AcceptSuggestion()
      modifies this
      ensures old(suggestion).Some? && old(suggestion).value != "" ==>
        katakanaName == old(suggestion).value && suggestion.None?
      ensures !(old(suggestion).Some? && old(suggestion).value != "") ==>
        katakanaName == old(katakanaName) && suggestion == old(suggestion)
      ensures isTranslating == old(isTranslating)
    {
      if suggestion.Some? && suggestion.value != "" {
        katakanaName := suggestion.value;
        suggestion := None;
      }
    }

    /** "Dismiss": drops the suggestion and leaves the field alone. */
    method Dismiss()
      modifies this
      ensures suggestion.None? && katakanaName == old(katakanaName) && isTranslating == old(isTranslating)
    {
      suggestion := None;
    }
  }

  /** A suggestion fetched and accepted ends in the field, and accepting again changes nothing. */
  method AcceptScenario()
  {
    var input := new KatakanaNameInput("");
    var sent := input.Transliterate("Aung San", Ok(Some("アウン・サン")));
    assert sent == Some(TransliterateRequest("Aung San", ENGLISH));
    input.AcceptSuggestion();
    assert input.katakanaName == "アウン・サン" && input.suggestion.None?;
    input.AcceptSuggestion();
    assert input.katakanaName == "アウン・サン";
    sent := input.Transliterate("", Ok(Some("ア")));
    assert sent.None? && input.suggestion.None?;
  }
}
