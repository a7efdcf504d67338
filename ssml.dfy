/**
  The speech-synthesis markup document built for every synthesis request.
  The document is a fixed template with holes for the document language,
  the voice name, the prosody rate, the prosody volume and the spoken text;
  each hole is filled verbatim, with no escaping, and the language hole
  always holds "en-GB". A reader for documents of a template's shape is the
  inverse of filling it: it recovers every value that went into the holes.
*/
module Ssml {

  import opened Wrappers
  import Voices

  /**
    A template: fixed text before the first hole, the markup that closes
    each quoted attribute hole, and the fixed text after the final,
    unquoted text hole.
  */
  datatype Template = Template(head: string, closers: seq<string>, tail: string)

  /** A value that can stand between double quotes as an attribute value. */
  predicate QuoteFree(s: string)
  {
    forall i | 0 <= i < |s| :: s[i] != '"'
  }

  /** Every value of the list is quote-free. */
  predicate AllQuoteFree(values: seq<string>)
  {
    forall i | 0 <= i < |values| :: QuoteFree(values[i])
  }

  /** Each attribute hole is closed by markup that starts with the closing quote. */
  predicate WellFormed(t: Template)
  {
    forall i | 0 <= i < |t.closers| :: |t.closers[i]| > 0 && t.closers[i][0] == '"'
  }

  /** `values[0] + closers[0] + values[1] + closers[1] + ... + after` */
  function Interleave(values: seq<string>, closers: seq<string>, after: string): string
    requires |values| == |closers|
  {
    if values == [] then after
    else values[0] + (closers[0] + Interleave(values[1..], closers[1..], after))
  }

  /** The template with its attribute holes and its text hole filled verbatim. */
  function Fill(t: Template, values: seq<string>, text: string): string
    requires |values| == |t.closers|
  {
    t.head + Interleave(values, t.closers, text + t.tail)
  }

  /** The position of the first double quote in `s`, or `|s|` if there is none. */
  function QuoteIndex(s: string): (k: nat)
    ensures k <= |s|
    ensures forall i | 0 <= i < k :: s[i] != '"'
    ensures k < |s| ==> s[k] == '"'
  {
    if s == [] || s[0] == '"' then 0
    else
      var k := QuoteIndex(s[1..]);
      assert forall i | 1 <= i < k + 1 :: s[i] == s[1..][i - 1];
      k + 1
  }

  /** True when `s` begins with `prefix`. */
  predicate StartsWith(s: string, prefix: string)
  {
    |prefix| <= |s| && s[..|prefix|] == prefix
  }

  /** True when `s` ends with `suffix`. */
  predicate EndsWith(s: string, suffix: string)
  {
    |suffix| <= |s| && s[|s| - |suffix|..] == suffix
  }

  /** Cutting a sequence in two and joining the halves gives it back. */
  lemma Rejoin(s: string, k: nat)
    requires k <= |s|
    ensures s[..k] + s[k..] == s
  {
  }

  /**
    Reads one attribute value per closer: each value runs to the next double
    quote and must be followed by its closer. Yields the values and whatever
    follows the last closer.
  */
  function ReadValues(s: string, closers: seq<string>): (r: Option<(seq<string>, string)>)
    ensures r.Some? ==> |r.value.0| == |closers| && Interleave(r.value.0, closers, r.value.1) == s
    ensures r.Some? ==> AllQuoteFree(r.value.0)
    decreases |closers|
  {
    if closers == [] then Some(([], s))
    else
      var k := QuoteIndex(s);
      var rest := s[k..];
      if !StartsWith(rest, closers[0]) then None
      else
        var next := ReadValues(rest[|closers[0]|..], closers[1..]);
        if next.None? then None
        else
          var values := [s[..k]] + next.value.0;
          ReadOne(s, k, closers, next.value.0, next.value.1);
          Some((values, next.value.1))
  }

  /** The step of ReadValues: the value before the first quote, its closer, then the rest. */
  lemma ReadOne(s: string, k: nat, closers: seq<string>, values: seq<string>, after: string)
    requires closers != [] && k <= |s| && StartsWith(s[k..], closers[0])
    requires forall i | 0 <= i < k :: s[i] != '"'
    requires |values| == |closers| - 1 && AllQuoteFree(values)
    requires Interleave(values, closers[1..], after) == s[k..][|closers[0]|..]
    ensures Interleave([s[..k]] + values, closers, after) == s
    ensures AllQuoteFree([s[..k]] + values)
  {
    var vs := [s[..k]] + values;
    assert vs[0] == s[..k] && vs[1..] == values;
    Rejoin(s, k);
    Rejoin(s[k..], |closers[0]|);
    assert QuoteFree(vs[0]);
    assert forall i | 1 <= i < |vs| :: vs[i] == values[i - 1];
  }

  /**
    Reads a document of the template's shape: the head, one quoted value per
    attribute hole, then the text up to the tail.
  */
  function Read(t: Template, doc: string): (r: Option<(seq<string>, string)>)
    ensures r.Some? ==> |r.value.0| == |t.closers| && Fill(t, r.value.0, r.value.1) == doc
    ensures r.Some? ==> AllQuoteFree(r.value.0)
  {
    if !StartsWith(doc, t.head) then None
    else
      var body := ReadValues(doc[|t.head|..], t.closers);
      if body.None? || !EndsWith(body.value.1, t.tail) then None
      else
        var rest := body.value.1;
        var text := rest[..|rest| - |t.tail|];
        Rejoin(rest, |rest| - |t.tail|);
        Rejoin(doc, |t.head|);
        Some((body.value.0, text))
  }

  /** The first quote after a quote-free prefix is the one that ends it. */
  lemma QuoteIndexAfter(value: string, rest: string)
    requires QuoteFree(value) && |rest| > 0 && rest[0] == '"'
    ensures QuoteIndex(value + rest) == |value|
  {
    var s := value + rest;
    var k := QuoteIndex(s);
    assert s[|value|] == '"';
    assert forall i | 0 <= i < |value| :: s[i] == value[i];
  }

  /** Quote-free values, each followed by a closer that starts with a quote, are read back exactly. */
  lemma {:induction false} ReadInterleaved(values: seq<string>, closers: seq<string>, after: string)
    requires |values| == |closers|
    requires AllQuoteFree(values)
    requires WellFormed(Template([], closers, []))
    ensures ReadValues(Interleave(values, closers, after), closers) == Some((values, after))
  {
    if values != [] {
      var tail := Interleave(values[1..], closers[1..], after);
      var s := values[0] + (closers[0] + tail);
      assert QuoteFree(values[0]);
      QuoteIndexAfter(values[0], closers[0] + tail);
      assert s[..|values[0]|] == values[0] && s[|values[0]|..] == closers[0] + tail;
      assert (closers[0] + tail)[..|closers[0]|] == closers[0];
      assert (closers[0] + tail)[|closers[0]|..] == tail;
      assert forall i | 0 <= i < |values| - 1 :: values[1..][i] == values[i + 1];
      assert forall i | 0 <= i < |closers| - 1 :: closers[1..][i] == closers[i + 1];
      ReadInterleaved(values[1..], closers[1..], after);
      assert [values[0]] + values[1..] == values;
    }
  }

  /** Filling a well-formed template and reading it back gives every value back. */
  lemma ReadFill(t: Template, values: seq<string>, text: string)
    requires WellFormed(t) && |values| == |t.closers| && AllQuoteFree(values)
    ensures Read(t, Fill(t, values, text)) == Some((values, text))
  {
    var rest := text + t.tail;
    var doc := Fill(t, values, text);
    assert doc[..|t.head|] == t.head && doc[|t.head|..] == Interleave(values, t.closers, rest);
    ReadInterleaved(values, t.closers, rest);
    assert EndsWith(rest, t.tail) && rest[..|rest| - |t.tail|] == text;
  }

  /** The synthesis document's fixed text, whitespace included. */
  const SpeakHead: string := "\n        <speak version=\"1.0\" xmlns=\"http://www.w3.org/2001/10/synthesis\" xml:lang=\""
  const VoiceHead: string := "\">\n            <voice name=\""
  const ProsodyHead: string := "\">\n                <prosody rate=\""
  const VolumeHead: string := "\" volume=\""
  const TextHead: string := "\">"
  const Tail: string := "</prosody>\n            </voice>\n        </speak>\n        "

  /** The synthesis template: holes for xml:lang, voice name, rate and volume, then the text. */
  const SynthesisTemplate: Template := Template(SpeakHead, [VoiceHead, ProsodyHead, VolumeHead, TextHead], Tail)

  /** The document language, the same for every request. */
  const DocumentLanguage: string := "en-GB"

  /** The markup sent to the synthesiser for one request. */
  function Document(voice: string, rate: string, volume: string, text: string): string
  {
    Fill(SynthesisTemplate, [DocumentLanguage, voice, rate, volume], text)
  }

  lemma SynthesisTemplateWellFormed()
    ensures WellFormed(SynthesisTemplate)
  {
  }

  /**
    Whatever voice, prosody and text are requested, the document's language
    is "en-GB" and the voice, rate, volume and text read back unchanged.
  */
  lemma DocumentFields(voice: string, rate: string, volume: string, text: string)
    requires QuoteFree(voice) && QuoteFree(rate) && QuoteFree(volume)
    ensures Read(SynthesisTemplate, Document(voice, rate, volume, text))
              == Some((["en-GB", voice, rate, volume], text))
  {
    var values := [DocumentLanguage, voice, rate, volume];
    assert QuoteFree(DocumentLanguage);
    assert forall i | 0 <= i < 4 :: values[i] in {DocumentLanguage, voice, rate, volume};
    SynthesisTemplateWellFormed();
    ReadFill(SynthesisTemplate, values, text);
  }

  /**
    A request to speak a translated text: the arguments of one synthesis
    call, which resolves the target language's voice and wraps the text in
    the template.
  */
  datatype SpeakRequest = SpeakRequest(text: string, targetLanguage: string, rate: string, volume: string)

  /** The voice the synthesiser is configured with for a request. */
  function VoiceOf(request: SpeakRequest): string
  {
    Voices.VoiceFor(request.targetLanguage)
  }

  /** The markup the synthesiser is sent for a request. */
  function MarkupOf(request: SpeakRequest): string
  {
    Document(VoiceOf(request), request.rate, request.volume, request.text)
  }

  /**
    The voice names of the table contain no double quote. The names are
    taken ten at a time, in table order, so that each proof stays small.
  */
  lemma VoiceNamesQuoteFree1()
    ensures QuoteFree("en-GB-RyanNeural")
    ensures QuoteFree("fr-FR-HenriNeural")
    ensures QuoteFree("es-ES-AlvaroNeural")
    ensures QuoteFree("de-DE-KarlNeural")
    ensures QuoteFree("it-IT-ElsaNeural")
    ensures QuoteFree("pt-BR-AntonioNeural")
    ensures QuoteFree("ru-RU-DmitryNeural")
    ensures QuoteFree("ja-JP-KeitaNeural")
    ensures QuoteFree("ko-KR-SunHiNeural")
    ensures QuoteFree("zh-CN-XiaoxiaoNeural")
  {
  }

  lemma VoiceNamesQuoteFree2()
    ensures QuoteFree("ar-EG-AmirNeural")
    ensures QuoteFree("nl-NL-EmmaNeural")
    ensures QuoteFree("sv-SE-AlvaNeural")
    ensures QuoteFree("pl-PL-MarekNeural")
    ensures QuoteFree("tr-TR-HakanNeural")
    ensures QuoteFree("da-DK-MikkelNeural")
    ensures QuoteFree("no-NO-KristianNeural")
    ensures QuoteFree("fi-FI-SatuNeural")
    ensures QuoteFree("cs-CZ-VojtaNeural")
    ensures QuoteFree("hu-HU-KrisztianNeural")
  {
  }

  lemma VoiceNamesQuoteFree3()
    ensures QuoteFree("sk-SK-PeterNeural")
    ensures QuoteFree("ro-RO-AndreiNeural")
    ensures QuoteFree("he-IL-YuvalNeural")
    ensures QuoteFree("th-TH-PattamaNeural")
    ensures QuoteFree("id-ID-DewiNeural")
    ensures QuoteFree("vi-VN-AnhNeural")
    ensures QuoteFree("hi-IN-SwaraNeural")
    ensures QuoteFree("ms-MY-ZuraNeural")
    ensures QuoteFree("fil-PH-JoannaNeural")
    ensures QuoteFree("bn-IN-SwapanNeural")
  {
  }

  lemma VoiceNamesQuoteFree4()
    ensures QuoteFree("ta-IN-SundarNeural")
    ensures QuoteFree("te-IN-VaniNeural")
    ensures QuoteFree("ml-IN-MadhuriNeural")
    ensures QuoteFree("mr-IN-AarohiNeural")
    ensures QuoteFree("gu-IN-RohitNeural")
    ensures QuoteFree("kn-IN-KavyaNeural")
    ensures QuoteFree("pa-IN-MadhurNeural")
    ensures QuoteFree("or-IN-SurajNeural")
    ensures QuoteFree("si-LK-DilaniNeural")
  {
  }

  /** Every voice the table lists is quote-free. */
  lemma TableVoicesQuoteFree()
    ensures forall v | v in Voices.VoiceTable.Values :: QuoteFree(v)
  {
    VoiceNamesQuoteFree1();
    VoiceNamesQuoteFree2();
    VoiceNamesQuoteFree3();
    VoiceNamesQuoteFree4();
  }

  /** Whatever code is asked for, the resolved voice can stand inside an attribute value. */
  lemma ResolvedVoiceQuoteFree(language: string)
    ensures QuoteFree(Voices.VoiceFor(language))
  {
    Voices.VoiceIsListed(language);
    TableVoicesQuoteFree();
  }

  /**
    A request's markup carries the voice resolved from its code, the rate
    and volume and the text verbatim, in a document whose language is
    "en-GB", whenever the rate and volume are quote-free.
  */
  lemma MarkupReadsBack(request: SpeakRequest)
    requires QuoteFree(request.rate) && QuoteFree(request.volume)
    ensures Read(SynthesisTemplate, MarkupOf(request))
              == Some((["en-GB", VoiceOf(request), request.rate, request.volume], request.text))
  {
    ResolvedVoiceQuoteFree(request.targetLanguage);
    DocumentFields(VoiceOf(request), request.rate, request.volume, request.text);
  }
}
