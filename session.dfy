/**
  The application's orchestration: the two session slots (`spoken_text`
  and `translation`), the start-up gate, and the three things a run of the
  page can do to the slots: fill absent slots with "", take a capture
  ("Tap to Speak"), and translate and speak ("Translate").

  Each service call is represented only by its outcome, given as an input:
  the recognised text of a capture, the detected language, the code the
  language-name lookup finds, and the translation service's response. An
  outcome of None stands for a call that raised or returned nothing. Each
  transition also reports which service calls it would make, so that the
  guards in front of them can be stated.

  The transitions are written once as functions on a `SessionState` value;
  the `Session` class holds the slots as fields and its methods perform
  the same transitions in place.
*/
module Session {

  import opened Wrappers
  import Voices
  import Ssml
  import Startup

  /** The five speech-rate levels offered, as the selector lists them. */
  datatype Speed = XSlow | Slow | MediumSpeed | Fast | XFast

  /** The five volume levels offered, as the selector lists them. */
  datatype Loudness = XSoft | Soft | MediumLoudness | Loud | XLoud

  /** The option text of a rate level, which is what goes into the prosody markup. */
  function SpeedName(speed: Speed): (name: string)
  {
    match speed
    case XSlow => "x-slow"
    case Slow => "slow"
    case MediumSpeed => "medium"
    case Fast => "fast"
    case XFast => "x-fast"
  }

  /** The option text of a volume level, which is what goes into the prosody markup. */
  function VolumeName(volume: Loudness): (name: string)
  {
    match volume
    case XSoft => "x-soft"
    case Soft => "soft"
    case MediumLoudness => "medium"
    case Loud => "loud"
    case XLoud => "x-loud"
  }

  /** No level name contains a double quote, so each can stand inside an attribute value. */
  lemma LevelNamesQuoteFree(speed: Speed, volume: Loudness)
    ensures Ssml.QuoteFree(SpeedName(speed)) && Ssml.QuoteFree(VolumeName(volume))
  {
  }

  /** Different rate levels give different markup, and so do different volume levels. */
  lemma NamesDistinct(a: Speed, b: Speed, x: Loudness, y: Loudness)
    ensures a != b ==> SpeedName(a) != SpeedName(b)
    ensures x != y ==> VolumeName(x) != VolumeName(y)
  {
  }

  /** The two session slots; None is a slot the session store does not hold yet. */
  datatype SessionState = SessionState(spokenText: Option<string>, translation: Option<string>)

  /** Both slots are held, as they are after initialisation. */
  predicate Filled(s: SessionState)
  {
    s.spokenText.Some? && s.translation.Some?
  }

  /**
    The external calls a run makes: whether it listens to the microphone,
    the text sent for language detection, the text and target code sent for
    translation, and the synthesis request (whose voice and markup are
    `Ssml.VoiceOf` and `Ssml.MarkupOf`).
  */
  datatype Calls = Calls(
    recognize: bool,
    detect: Option<string>,
    translate: Option<(string, string)>,
    synthesize: Option<Ssml.SpeakRequest>)

  const NoCalls: Calls := Calls(false, None, None, None)

  /** The synthesis request for a translated text, with the two selectors' option texts. */
  function SpeakRequestFor(text: string, code: string, speed: Speed, volume: Loudness): Ssml.SpeakRequest
  {
    Ssml.SpeakRequest(text, code, SpeedName(speed), VolumeName(volume))
  }

  /** Initialisation: each absent slot becomes "", a held slot keeps its value. */
  function Initialized(s: SessionState): (r: SessionState)
    ensures Filled(r)
    ensures s.spokenText.Some? ==> r.spokenText == s.spokenText
    ensures s.translation.Some? ==> r.translation == s.translation
    ensures s.spokenText.None? ==> r.spokenText == Some("")
    ensures s.translation.None? ==> r.translation == Some("")
  {
    SessionState(
      if s.spokenText.None? then Some("") else s.spokenText,
      if s.translation.None? then Some("") else s.translation)
  }

  /**
    "Tap to Speak": `heard` is what the capture returned (None when
    recognition failed or raised). Only non-empty text is taken; it replaces
    the spoken text and clears the translation.
  */
  function Captured(s: SessionState, heard: Option<string>): (r: SessionState)
    ensures heard.Some? && heard.value != "" ==> r == SessionState(heard, Some(""))
    ensures heard.None? || heard.value == "" ==> r == s
  {
    if heard.Some? && heard.value != "" then SessionState(heard, Some("")) else s
  }

  /**
    The target code the translation is sent to: the lookup of the typed
    language name is consulted only for a non-empty name, and an empty code
    counts as none.
  */
  function TargetCode(targetName: string, found: Option<string>): (r: Option<string>)
    ensures r.Some? <==> targetName != "" && found.Some? && found.value != ""
    ensures r.Some? ==> r == found
  {
    if targetName != "" && found.Some? && found.value != "" then found else None
  }

  /**
    "Translate". With empty spoken text nothing happens. Otherwise the
    spoken text is sent for language detection (`detected` None: the call
    raised and the run ends there); the detected language is not used. The
    run stops unless the target name yields a code; then the text is sent
    for translation (`response` None: the call raised). A non-empty response
    sets the translation to its first text and requests synthesis with the
    code's voice; an empty one changes nothing.
  */
  function Translated(s: SessionState, targetName: string, speed: Speed, volume: Loudness,
                      detected: Option<string>, found: Option<string>,
                      response: Option<seq<string>>): (r: (SessionState, Calls))
    requires s.spokenText.Some?
    ensures r.0.spokenText == s.spokenText
    ensures !r.1.recognize
    ensures s.spokenText.value == "" ==> r == (s, NoCalls)
    ensures r.1.detect == if s.spokenText.value != "" then s.spokenText else None
    ensures r.1.translate.Some? <==>
              s.spokenText.value != "" && detected.Some? && TargetCode(targetName, found).Some?
    ensures r.1.translate.Some? ==>
              r.1.translate.value == (s.spokenText.value, TargetCode(targetName, found).value)
    ensures r.1.synthesize.Some? <==> r.1.translate.Some? && response.Some? && response.value != []
    ensures r.1.synthesize.None? ==> r.0 == s
    ensures r.1.synthesize.Some? ==>
              && r.0.translation == Some(response.value[0])
              && r.1.synthesize.value == SpeakRequestFor(response.value[0], r.1.translate.value.1, speed, volume)
  {
    var spoken := s.spokenText.value;
    if spoken == "" then (s, NoCalls)
    else
      var detecting := NoCalls.(detect := Some(spoken));
      if detected.None? then (s, detecting)
      else
        var target := TargetCode(targetName, found);
        if target.None? then (s, detecting)
        else
          var asked := detecting.(translate := Some((spoken, target.value)));
          if response.None? || response.value == [] then (s, asked)
          else
            var text := response.value[0];
            (s.(translation := Some(text)), asked.(synthesize := Some(SpeakRequestFor(text, target.value, speed, volume))))
  }

  /** The widgets' values in one run: button presses, the typed language name, the two selectors. */
  datatype Widgets = Widgets(tapToSpeak: bool, targetName: string, speed: Speed, volume: Loudness, translate: bool)

  /** The outcomes of the external calls one run may make. */
  datatype Outcomes = Outcomes(
    sdkAccepts: bool,
    heard: Option<string>,
    detected: Option<string>,
    found: Option<string>,
    response: Option<seq<string>>)

  /**
    One run of the page: the start-up gate, initialisation, then the
    capture if "Tap to Speak" was pressed and the translation if
    "Translate" was pressed, in that order.
  */
  function Rerun(s: SessionState, env: Startup.Env, w: Widgets, o: Outcomes): (r: (SessionState, Calls))
    ensures Startup.InitializeClients(env, o.sdkAccepts).None? ==> r == (s, NoCalls)
    ensures Startup.InitializeClients(env, o.sdkAccepts).Some? ==> Filled(r.0)
    ensures r.1.recognize == (Startup.Complete(env) && o.sdkAccepts && w.tapToSpeak)
    ensures !w.translate ==> r.1.detect.None? && r.1.translate.None? && r.1.synthesize.None?
    ensures Startup.InitializeClients(env, o.sdkAccepts).Some? ==>
              var entered := if w.tapToSpeak then Captured(Initialized(s), o.heard) else Initialized(s);
              var t := Translated(entered, w.targetName, w.speed, w.volume, o.detected, o.found, o.response);
              && (!w.translate ==> r.0 == entered)
              && (w.translate ==> r.0 == t.0 && r.1 == t.1.(recognize := w.tapToSpeak))
  {
    if Startup.InitializeClients(env, o.sdkAccepts).None? then (s, NoCalls)
    else
      var s1 := Initialized(s);
      var s2 := if w.tapToSpeak then Captured(s1, o.heard) else s1;
      if w.translate then
        var t := Translated(s2, w.targetName, w.speed, w.volume, o.detected, o.found, o.response);
        (t.0, t.1.(recognize := w.tapToSpeak))
      else (s2, NoCalls.(recognize := w.tapToSpeak))
  }

  /**
    A run with neither button pressed changes the session at most once: on
    the next such run it is already initialised and nothing happens, and no
    service is called either time.
  */
  lemma IdleRerunSettles(s: SessionState, env: Startup.Env, w: Widgets, o: Outcomes)
    requires !w.tapToSpeak && !w.translate
    ensures Rerun(s, env, w, o).1 == NoCalls
    ensures Rerun(Rerun(s, env, w, o).0, env, w, o) == Rerun(s, env, w, o)
  {
    InitializedIdempotent(s);
  }

  /**
    Whenever a run speaks a translation, that translation was made from the
    spoken text held in the slot after the run.
  */
  lemma RerunTranslationIsCurrent(s: SessionState, env: Startup.Env, w: Widgets, o: Outcomes)
    ensures var r := Rerun(s, env, w, o);
            r.1.synthesize.Some? ==>
              && r.1.translate.Some?
              && r.0.spokenText == Some(r.1.translate.value.0)
              && r.0.translation == Some(r.1.synthesize.value.text)
  {
  }

  /** Initialisation never overwrites and doing it twice is doing it once. */
  lemma InitializedIdempotent(s: SessionState)
    ensures Initialized(Initialized(s)) == Initialized(s)
    ensures Filled(s) ==> Initialized(s) == s
  {
  }

  /** The detected language has no effect: any two successful detections give the same run. */
  lemma DetectionUnused(s: SessionState, targetName: string, speed: Speed, volume: Loudness,
                        d1: string, d2: string, found: Option<string>, response: Option<seq<string>>)
    requires s.spokenText.Some?
    ensures Translated(s, targetName, speed, volume, Some(d1), found, response)
         == Translated(s, targetName, speed, volume, Some(d2), found, response)
  {
  }

  /**
    A blank target name, whatever the lookup would have said, stops after
    detection: no translation, no synthesis, and the slots are unchanged.
  */
  lemma BlankTargetStops(s: SessionState, speed: Speed, volume: Loudness,
                         detected: Option<string>, found: Option<string>, response: Option<seq<string>>)
    requires s.spokenText.Some?
    ensures var r := Translated(s, "", speed, volume, detected, found, response);
            r.0 == s && r.1.translate.None? && r.1.synthesize.None?
  {
  }

  /**
    From a fresh session: "Hello there" is captured, "French" resolves to
    "fr", the service answers "Bonjour". The translation slot then holds
    "Bonjour" and synthesis is requested with the voice fr-FR-HenriNeural.
  */
  lemma HelloThereScenario(speed: Speed, volume: Loudness)
    ensures var heard := Captured(Initialized(SessionState(None, None)), Some("Hello there"));
            var r := Translated(heard, "French", speed, volume, Some("en"), Some("fr"), Some(["Bonjour"]));
            && r.0 == SessionState(Some("Hello there"), Some("Bonjour"))
            && r.1.detect == Some("Hello there")
            && r.1.translate == Some(("Hello there", "fr"))
            && r.1.synthesize == Some(SpeakRequestFor("Bonjour", "fr", speed, volume))
            && Ssml.VoiceOf(r.1.synthesize.value) == "fr-FR-HenriNeural"
  {
    Voices.FrenchVoice();
  }

  /**
    Rate "x-fast", volume "x-loud", target "de": the markup names the voice
    de-DE-KarlNeural and carries both levels verbatim.
  */
  lemma GermanProsodyScenario(text: string)
    ensures Ssml.Read(Ssml.SynthesisTemplate, Ssml.MarkupOf(SpeakRequestFor(text, "de", XFast, XLoud)))
              == Some((["en-GB", "de-DE-KarlNeural", "x-fast", "x-loud"], text))
  {
    var request := SpeakRequestFor(text, "de", XFast, XLoud);
    Voices.GermanVoice();
    assert Ssml.MarkupOf(request) == Ssml.Document("de-DE-KarlNeural", "x-fast", "x-loud", text);
    LevelNamesQuoteFree(XFast, XLoud);
    assert Ssml.QuoteFree("de-DE-KarlNeural");
    Ssml.DocumentFields("de-DE-KarlNeural", "x-fast", "x-loud", text);
  }

  /**
    Whenever a translation run asks for synthesis, the markup it builds reads
    back to the voice resolved from the target code, the chosen rate and
    volume, and exactly the translation now held in the slot.
  */
  lemma SynthesisReadsBack(s: SessionState, targetName: string, speed: Speed, volume: Loudness,
                           detected: Option<string>, found: Option<string>, response: Option<seq<string>>)
    requires s.spokenText.Some?
    ensures var r := Translated(s, targetName, speed, volume, detected, found, response);
            r.1.synthesize.Some? ==>
              var request := r.1.synthesize.value;
              && r.0.translation.Some?
              && Ssml.Read(Ssml.SynthesisTemplate, Ssml.MarkupOf(request))
                   == Some(([Ssml.DocumentLanguage, Voices.VoiceFor(r.1.translate.value.1), SpeedName(speed), VolumeName(volume)],
                            r.0.translation.value))
  {
    var r := Translated(s, targetName, speed, volume, detected, found, response);
    if r.1.synthesize.Some? {
      LevelNamesQuoteFree(speed, volume);
      Ssml.MarkupReadsBack(r.1.synthesize.value);
    }
  }

  /**
    The chosen levels are visible in the markup: two requests for the same
    text and code that differ in rate, or in volume, produce different markup.
  */
  lemma LevelsDistinguishMarkup(text: string, code: string, a: Speed, b: Speed, x: Loudness, y: Loudness)
    requires a != b || x != y
    ensures Ssml.MarkupOf(SpeakRequestFor(text, code, a, x)) != Ssml.MarkupOf(SpeakRequestFor(text, code, b, y))
  {
    NamesDistinct(a, b, x, y);
    LevelNamesQuoteFree(a, x);
    LevelNamesQuoteFree(b, y);
    Ssml.MarkupReadsBack(SpeakRequestFor(text, code, a, x));
    Ssml.MarkupReadsBack(SpeakRequestFor(text, code, b, y));
  }

  /**
    The session store. The ghost field `translatedFrom` is the spoken text
    most recently sent for a translation that was stored: only "Translate"
    sets it, at the moment it stores a translation, and every other step
    leaves it alone. `Consistent` says that a non-empty translation is held
    alongside the spoken text it was made from.
  */
  class Session {
    var spokenText: Option<string>
    var translation: Option<string>
    ghost var translatedFrom: string

    /** The slots as a value. */
    function Snapshot(): SessionState
      reads this
    {
      SessionState(spokenText, translation)
    }

    ghost predicate Consistent()
      reads this
    {
      translation.Some? && translation.value != "" ==> spokenText == Some(translatedFrom)
    }

    /** A new session holds neither slot. */
    constructor ()
      ensures Snapshot() == SessionState(None, None) && Consistent()
    {
      spokenText := None;
      translation := None;
      translatedFrom := "";
    }

    /** Fills each absent slot with "". */
    method InitializeSlots()
      requires Consistent()
      modifies this
      ensures Snapshot() == Initialized(old(Snapshot()))
      ensures translatedFrom == old(translatedFrom)
      ensures Consistent()
    {
      if spokenText.None? {
        spokenText := Some("");
      }
      if translation.None? {
        translation := Some("");
      }
    }

    /** "Tap to Speak" with the capture's outcome `heard`. */
    method TapToSpeak(heard: Option<string>)
      requires Consistent()
      modifies this
      ensures Snapshot() == Captured(old(Snapshot()), heard)
      ensures translatedFrom == old(translatedFrom)
      ensures Consistent()
    {
      if heard.Some? && heard.value != "" {
        spokenText := heard;
        translation := Some("");
      }
    }

    /** "Translate" with the given widget values and service outcomes; returns the calls made. */
    method Translate(targetName: string, speed: Speed, volume: Loudness,
                     detected: Option<string>, found: Option<string>,
                     response: Option<seq<string>>) returns (calls: Calls)
      requires spokenText.Some? && Consistent()
      modifies this
      ensures (Snapshot(), calls) == Translated(old(Snapshot()), targetName, speed, volume, detected, found, response)
      ensures calls.synthesize.Some? ==> translatedFrom == calls.translate.value.0
      ensures calls.synthesize.None? ==> translatedFrom == old(translatedFrom)
      ensures Consistent()
    {
      calls := NoCalls;
      if spokenText.value != "" {
        var spoken := spokenText.value;
        calls := calls.(detect := Some(spoken));
        if detected.None? {
          return;
        }
        var target := if targetName != "" then found else None;
        if target.Some? && target.value != "" {
          calls := calls.(translate := Some((spoken, target.value)));
          if response.Some? && response.value != [] {
            translation := Some(response.value[0]);
            translatedFrom := spoken;
            calls := calls.(synthesize := Some(SpeakRequestFor(translation.value, target.value, speed, volume)));
          }
        }
      }
    }

    /** One run of the page. */
    method Run(env: Startup.Env, w: Widgets, o: Outcomes) returns (calls: Calls)
      requires Consistent()
      modifies this
      ensures (Snapshot(), calls) == Rerun(old(Snapshot()), env, w, o)
      ensures calls.synthesize.Some? ==> translatedFrom == calls.translate.value.0
      ensures calls.synthesize.None? ==> translatedFrom == old(translatedFrom)
      ensures Consistent()
    {
      var clients := Startup.InitializeClients(env, o.sdkAccepts);
      if clients.None? {
        return NoCalls;
      }
      InitializeSlots();
      calls := NoCalls;
      if w.tapToSpeak {
        TapToSpeak(o.heard);
        calls := calls.(recognize := true);
      }
      if w.translate {
        calls := Translate(w.targetName, w.speed, w.volume, o.detected, o.found, o.response);
        calls := calls.(recognize := w.tapToSpeak);
      }
    }
  }
}
