/**
  The language-code to synthesis-voice resolver: a fixed table of 39 exact
  language codes and a fallback voice for every other string.
*/
module Voices {

  /** The voice used for any code that is not a key of the table. */
  const DefaultVoice: string := "en-GB-RyanNeural"

  /** The resolver's table, one entry per supported code, in the source's order. */
  const VoiceTable: map<string, string> := map[
      "en" := "en-GB-RyanNeural",
      "fr" := "fr-FR-HenriNeural",
      "es" := "es-ES-AlvaroNeural",
      "de" := "de-DE-KarlNeural",
      "it" := "it-IT-ElsaNeural",
      "pt" := "pt-BR-AntonioNeural",
      "ru" := "ru-RU-DmitryNeural",
      "ja" := "ja-JP-KeitaNeural",
      "ko" := "ko-KR-SunHiNeural",
      "zh" := "zh-CN-XiaoxiaoNeural",
      "ar" := "ar-EG-AmirNeural",
      "nl" := "nl-NL-EmmaNeural",
      "sv" := "sv-SE-AlvaNeural",
      "pl" := "pl-PL-MarekNeural",
      "tr" := "tr-TR-HakanNeural",
      "da" := "da-DK-MikkelNeural",
      "no" := "no-NO-KristianNeural",
      "fi" := "fi-FI-SatuNeural",
      "cs" := "cs-CZ-VojtaNeural",
      "hu" := "hu-HU-KrisztianNeural",
      "sk" := "sk-SK-PeterNeural",
      "ro" := "ro-RO-AndreiNeural",
      "he" := "he-IL-YuvalNeural",
      "th" := "th-TH-PattamaNeural",
      "id" := "id-ID-DewiNeural",
      "vi" := "vi-VN-AnhNeural",
      "hi" := "hi-IN-SwaraNeural",
      "ms" := "ms-MY-ZuraNeural",
      "fil" := "fil-PH-JoannaNeural",
      "bn" := "bn-IN-SwapanNeural",
      "ta" := "ta-IN-SundarNeural",
      "te" := "te-IN-VaniNeural",
      "ml" := "ml-IN-MadhuriNeural",
      "mr" := "mr-IN-AarohiNeural",
      "gu" := "gu-IN-RohitNeural",
      "kn" := "kn-IN-KavyaNeural",
      "pa" := "pa-IN-MadhurNeural",
      "or" := "or-IN-SurajNeural",
      "si" := "si-LK-DilaniNeural"
    ]

  /** Resolves a language code to a voice: the table's entry for the exact code, else the default. */
  function VoiceFor(language: string): string
  {
    if language in VoiceTable then VoiceTable[language] else DefaultVoice
  }

  /**
    The resolver is total and never invents a voice: every string, listed or
    not, resolves to a voice the table lists, because the default voice is
    the table's own entry for "en".
  */
  lemma VoiceIsListed(language: string)
    ensures VoiceFor(language) in VoiceTable.Values
  {
    assert VoiceTable["en"] == DefaultVoice;
  }

  /** A listed code resolves to its own entry; any other string to the default. */
  lemma VoiceLookup(language: string)
    ensures language in VoiceTable ==> VoiceFor(language) == VoiceTable[language]
    ensures language !in VoiceTable ==> VoiceFor(language) == DefaultVoice
  {
  }

  /** True when `code` followed by a dash begins `voice`. */
  predicate NamesLanguage(voice: string, code: string)
  {
    |code| < |voice| && voice[..|code|] == code && voice[|code|] == '-'
  }

  /** Every voice in the table is a voice of the language it is listed under. */
  lemma TableVoicesMatchCodes(code: string)
    requires code in VoiceTable
    ensures NamesLanguage(VoiceTable[code], code)
  {
  }

  /** The fallback voice comes out exactly for "en" and for every unlisted string. */
  lemma DefaultExactly(language: string)
    ensures VoiceFor(language) == DefaultVoice <==> language == "en" || language !in VoiceTable
  {
  }

  /** No listed code contains a dash. */
  lemma CodesHaveNoDash(code: string)
    ensures code in VoiceTable ==> forall i | 0 <= i < |code| :: code[i] != '-'
  {
  }

  /** Two dash-free codes that both begin a voice name, each followed by a dash, are the same code. */
  lemma SameVoiceSameCode(voice: string, a: string, b: string)
    requires NamesLanguage(voice, a) && NamesLanguage(voice, b)
    requires forall i | 0 <= i < |a| :: a[i] != '-'
    requires forall i | 0 <= i < |b| :: b[i] != '-'
    ensures a == b
  {
    assert forall i | 0 <= i < |a| :: a[i] == voice[i];
    assert forall i | 0 <= i < |b| :: b[i] == voice[i];
  }

  /**
    Different listed codes resolve to different voices: each voice begins
    with its own code and a dash, and no code contains a dash, so one voice
    cannot begin with two different codes.
  */
  lemma TableInjective(a: string, b: string)
    requires a in VoiceTable && b in VoiceTable && a != b
    ensures VoiceFor(a) != VoiceFor(b)
  {
    TableVoicesMatchCodes(a);
    TableVoicesMatchCodes(b);
    CodesHaveNoDash(a);
    CodesHaveNoDash(b);
    if VoiceTable[a] == VoiceTable[b] {
      SameVoiceSameCode(VoiceTable[a], a, b);
    }
  }

  /** Exact-key lookups of listed codes. */
  lemma FrenchVoice()
    ensures VoiceFor("fr") == "fr-FR-HenriNeural"
  {
  }

  lemma GermanVoice()
    ensures VoiceFor("de") == "de-DE-KarlNeural"
  {
  }

  lemma FilipinoVoice()
    ensures VoiceFor("fil") == "fil-PH-JoannaNeural"
  {
  }

  /**
    A region-tagged code such as "fr-CA" is not a key, however its language
    part reads, so it gets the default voice.
  */
  lemma RegionTaggedFallsBack(code: string, dash: nat)
    requires dash < |code| && code[dash] == '-'
    ensures VoiceFor(code) == DefaultVoice
  {
    CodesHaveNoDash(code);
  }

  /** The empty string and a region-tagged French code both get the default voice. */
  lemma FallbackExamples()
    ensures VoiceFor("") == DefaultVoice
    ensures VoiceFor("fr-CA") == DefaultVoice
  {
    RegionTaggedFallsBack("fr-CA", 2);
  }
}
