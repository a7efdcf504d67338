# Speech Translator: a Dafny model of its orchestration core

The Speech Translator is a one-page Streamlit application. It captures speech
from the microphone and transcribes it. It then translates the text into a
language the user names, and speaks the translation with a synthesis voice
chosen for that language. The cloud services do the real work. The
application itself only holds the logic around them, and that logic is what
this project models:

- `Voices` (voices.dfy): the resolver from a language code to a voice
  name. It has a fixed table of 39 codes and the fallback voice
  `en-GB-RyanNeural` for every other string.
- `Ssml` (ssml.dfy): the speech-markup document sent to the synthesiser.
  - The document is a fixed template with four attribute holes (document
    language, voice, rate, volume) and the spoken text.
  - A reader takes a document apart again. For a template whose every
    literal piece after a hole starts with the closing quote, reading back
    the template filled with quote-free attribute values returns exactly
    those values and the text. The synthesis template has that shape, and
    the document language, every voice of the table and every rate and
    volume option are quote-free, so every synthesis request reads back.
- `Startup` (startup.dfy): the start-up gate.
  - The six environment values must all be set and non-empty.
  - The client configuration is built from those values.
- `Session` (session.dfy): the two session slots `spoken_text` and
  `translation`, and what one run of the page does to them.
  - Absent slots are set to "".
  - "Tap to Speak" takes a capture.
  - "Translate" detects, resolves the target, translates, sets the
    translation and requests synthesis.
  - Each transition is written once as a function on a `SessionState` value.
  - The `Session` class holds the slots as fields. Its methods make the
    same transitions in place and are proved equal to those functions.
  - A ghost field records the spoken text that was sent for the stored
    translation; only "Translate" sets it, when it stores a translation,
    and every other step leaves it unchanged. Every method keeps the
    invariant that a non-empty translation is held alongside that spoken text.
- `Wrappers` (wrappers.dfy): the `Option` type.

External calls are not modelled as calls. Their outcomes are inputs to the
model. This covers recognition, language detection, the language-name
lookup, translation, and whether the SDK constructors accept the
configuration. An outcome of `None` stands for a call that raised or
returned nothing. Each transition also returns a `Calls` record saying which
service calls the run makes and with which arguments. This is how the
guards in front of those calls are stated.

Two behaviours of the code are worth stating, and the model follows them:

- With a blank target-language name, the "Translate" handler still sends
  the spoken text for language detection (Speech.py line 173) before the
  name check on line 174 yields no target and the run stops.
  `Session.Translated` and `Session.BlankTargetStops` record that detection
  call.
- No `try` covers detection, the language lookup or translation (lines
  173-181). A raised call among these ends the run, and the slots keep the
  values they had before the press.

## Model

| member | source | states |
|---|---|---|
| Voices.VoiceFor | Speech-Translator/Speech.py:77-119 | The resolver itself: the table entry for an exact key, otherwise en-GB-RyanNeural. Its properties are the lemmas below. |
| Voices.VoiceIsListed | Speech-Translator/Speech.py:77-119 | Every code, listed or not, resolves to a voice that occurs in the table (the fallback is the entry for "en"). |
| Voices.VoiceLookup | Speech-Translator/Speech.py:119 | `VoiceFor`'s definition unfolded: a listed code resolves to its own table entry, any other string to the fallback voice. |
| Voices.TableVoicesMatchCodes | Speech-Translator/Speech.py:79-117 | Each table voice begins with its own code followed by a dash. |
| Voices.CodesHaveNoDash | Speech-Translator/Speech.py:79-117 | No table key contains a dash, so the keys are bare codes without a region. |
| Voices.SameVoiceSameCode | Speech-Translator/Speech.py:79-117 | Helper for `TableInjective`: two dash-free codes that both prefix the same voice name up to a dash are the same code. |
| Voices.TableInjective | Speech-Translator/Speech.py:79-117 | Two different listed codes never resolve to the same voice. |
| Voices.DefaultExactly | Speech-Translator/Speech.py:79-119 | A code gets the fallback voice if and only if it is "en" or not listed. |
| Voices.RegionTaggedFallsBack | Speech-Translator/Speech.py:78-119 | Any code containing a dash, such as a region-tagged one, gets the fallback voice. |
| Voices.FallbackExamples | Speech-Translator/Speech.py:119 | The empty string and "fr-CA" both get the fallback voice. |
| Voices.FrenchVoice | Speech-Translator/Speech.py:80 | "fr" resolves to fr-FR-HenriNeural. |
| Voices.GermanVoice | Speech-Translator/Speech.py:82 | "de" resolves to de-DE-KarlNeural. |
| Voices.FilipinoVoice | Speech-Translator/Speech.py:107 | The three-letter code "fil" resolves to fil-PH-JoannaNeural. |
| Ssml.QuoteIndex | Speech-Translator/Speech.py:62-68 | Helper for the reader: the position found is the first double quote of the text, or its end if there is none. |
| Ssml.ReadValues | Speech-Translator/Speech.py:62-68 | A successful read yields one quote-free value per closing delimiter, and interleaving them with the delimiters gives back the input. |
| Ssml.Read | Speech-Translator/Speech.py:62-68 | A successful read of a document yields quote-free attribute values and a text, and filling the template with them gives back the document. |
| Ssml.ReadInterleaved | Speech-Translator/Speech.py:62-68 | Helper for `ReadFill`: reading quote-free values interleaved with quote-led delimiters returns exactly those values and the remainder. |
| Ssml.ReadFill | Speech-Translator/Speech.py:62-68 | For a well-formed template (every literal piece after a hole starts with the closing quote) filled with quote-free values, reading the result returns exactly those values and the text. |
| Ssml.SynthesisTemplateWellFormed | Speech-Translator/Speech.py:62-68 | Helper for `DocumentFields`: every literal piece after an attribute hole of the markup begins with the closing quote. |
| Ssml.Document | Speech-Translator/Speech.py:62-68 | The markup text, whitespace included, with xml:lang "en-GB", the voice, rate and volume in their attributes and the text inside the prosody element. Its meaning is stated by `DocumentFields`. |
| Ssml.MarkupOf | Speech-Translator/Speech.py:56-68 | The markup sent for a request: the document built with the voice resolved from the request's language code (line 58). Its meaning is stated by `MarkupReadsBack`. |
| Ssml.VoiceOf | Speech-Translator/Speech.py:58 | The voice configured for a request: the resolver applied to its target code. Stated by `ResolvedVoiceQuoteFree` and `MarkupReadsBack`. |
| Ssml.TableVoicesQuoteFree | Speech-Translator/Speech.py:79-117 | No voice of the table contains a double quote. |
| Ssml.ResolvedVoiceQuoteFree | Speech-Translator/Speech.py:58 | The voice resolved for any code whatever is free of double quotes, so it can stand inside the voice attribute. |
| Ssml.DocumentFields | Speech-Translator/Speech.py:62-68 | The markup for quote-free voice, rate and volume reads back the language "en-GB", that voice, rate and volume, and the text unchanged. |
| Ssml.MarkupReadsBack | Speech-Translator/Speech.py:56-68 | For every language code, the markup of a request with quote-free rate and volume reads back "en-GB", the voice resolved from the code, the rate, the volume and the text verbatim. |
| Startup.Complete | Speech-Translator/Speech.py:24 | The completeness test: each of the six values is set and non-empty. |
| Startup.InitializeClients | Speech-Translator/Speech.py:12-35 | Clients exist if and only if all six values are set and non-empty and the constructors accept them. The clients take their endpoint, keys and regions from those values; the speech configuration takes the AI-service key and the speech region. |
| Startup.AnyMissingStops | Speech-Translator/Speech.py:24-26 | One unset or empty value is enough to give no clients. |
| Session.SpeedName | Speech-Translator/Speech.py:160-163 | The option text of each of the five rate levels, in the selector's order. |
| Session.VolumeName | Speech-Translator/Speech.py:165-168 | The option text of each of the five volume levels, in the selector's order. |
| Session.LevelNamesQuoteFree | Speech-Translator/Speech.py:160-168 | No rate or volume option contains a double quote. |
| Session.NamesDistinct | Speech-Translator/Speech.py:160-168 | Different rate options have different texts, and so do different volume options. |
| Session.SpeakRequestFor | Speech-Translator/Speech.py:184-190 | The synthesis call's arguments: the stored translation, the target code, and the two selectors' option texts as rate and volume. Its use is stated by `SynthesisReadsBack` and `LevelsDistinguishMarkup`. |
| Session.Initialized | Speech-Translator/Speech.py:132-135 | Afterwards both slots are present; a slot that was absent becomes "", and a present slot keeps its value. |
| Session.InitializedIdempotent | Speech-Translator/Speech.py:132-135 | Initialising twice has the effect of initialising once, and initialising a filled session changes nothing. |
| Session.Captured | Speech-Translator/Speech.py:147-154 | A non-empty capture replaces the spoken text and clears the translation; a failed or empty capture leaves the session unchanged. |
| Session.TargetCode | Speech-Translator/Speech.py:174-176 | A target code exists if and only if the name is non-empty and the lookup yields a non-empty code, and it is that code. |
| Session.Translated | Speech-Translator/Speech.py:170-190 | Empty spoken text makes no call and no change. Otherwise the spoken text goes to detection. Translation of (spoken text, code) is requested exactly when detection succeeded and a target code exists. Synthesis is requested exactly when a non-empty answer came back; it uses the first translated text, the code, and the chosen rate and volume, and that text becomes the translation. Without synthesis the slots are unchanged, and the spoken text is never changed. |
| Session.DetectionUnused | Speech-Translator/Speech.py:173 | The detected language has no influence on the outcome of "Translate". |
| Session.BlankTargetStops | Speech-Translator/Speech.py:170-176 | A blank target name leads to no translation and no synthesis, whatever the lookup says, and leaves the slots unchanged. |
| Session.HelloThereScenario | Speech-Translator/Speech.py:147-190 | Capturing "Hello there", then translating to "French" with code "fr" and answer "Bonjour", leaves "Bonjour" held in the translation slot, translates ("Hello there", "fr") and speaks with fr-FR-HenriNeural. |
| Session.GermanProsodyScenario | Speech-Translator/Speech.py:56-68 | The markup for code "de" with rate x-fast and volume x-loud reads back de-DE-KarlNeural, "x-fast", "x-loud" and the text. |
| Session.SynthesisReadsBack | Speech-Translator/Speech.py:180-190 | Whenever "Translate" requests synthesis, for any target code, its markup reads back the voice resolved from that code, the chosen rate and volume, and exactly the translation now held in the slot. |
| Session.LevelsDistinguishMarkup | Speech-Translator/Speech.py:160-168 | Two requests for the same text and code that differ in rate or in volume give different markup. |
| Session.Rerun | Speech-Translator/Speech.py:122-190 | Without clients the run changes nothing and makes no call. With clients both slots are present afterwards, and recognition runs exactly when "Tap to Speak" was pressed. No detection, translation or synthesis is requested unless "Translate" was pressed. With clients the slots become the initialised ones, after the capture if "Tap to Speak" was pressed; with "Translate" pressed, the slots and calls are then those of `Translated` on that state. |
| Session.IdleRerunSettles | Speech-Translator/Speech.py:122-135 | A run with neither button pressed makes no call, and a second such run changes nothing more. |
| Session.RerunTranslationIsCurrent | Speech-Translator/Speech.py:147-190 | Whenever a run speaks a translation, it was translated from the spoken text held in the slot after the run, and the text spoken is the translation held in the slot. |
| Session.Session.constructor | Speech-Translator/Speech.py:132-135 | A new session has neither slot and satisfies the consistency invariant. |
| Session.Session.InitializeSlots | Speech-Translator/Speech.py:132-135 | The new slots are `Initialized` of the old ones, the recorded source of the translation is unchanged, and consistency is kept. |
| Session.Session.TapToSpeak | Speech-Translator/Speech.py:147-154 | The new slots are `Captured` of the old ones, the recorded source of the translation is unchanged, and consistency is kept. |
| Session.Session.Translate | Speech-Translator/Speech.py:170-190 | The new slots and the calls made are `Translated` of the old slots. A stored translation records as its source exactly the text sent for translation; otherwise the recorded source is unchanged. A non-empty translation held in the slot belongs to the spoken text held beside it. |
| Session.Session.Run | Speech-Translator/Speech.py:122-190 | The new slots and the calls made are `Rerun` of the old slots; the recorded source of the translation changes only when a translation is stored, and then to the text sent for translation; consistency is kept. |

## Left out

- Rendering (title, columns, text area, markdown, the "Listening..." and error messages) is left out; the model keeps only the session slots and the calls made.
- The cloud SDKs (speech recognition and synthesis, text analytics, translation) are not modelled. Their results are inputs, and `None` stands for an exception or a failed result.
- Reading the `.env` file and the environment (`load_dotenv`, `os.getenv`) is outside the model; the values arrive as an `Env`.
- The language-name lookup (`langcodes.find`) is fuzzy matching in a foreign library. Its result is an input; `None` stands for a name it cannot resolve.
- An index error on an empty `translations` list inside the first response item is folded into the response being `None`. Like every other uncaught error in the handler, it ends the run with the slots unchanged.
- The outcome of synthesis (completed, failed or raised) only produces a message and cannot change state, so the model records the request and not its outcome.
- The speech key is checked for presence but never used: the speech configuration is built from the AI-service key and the speech region. The model records this as the code does it.
- The page draws both slots (lines 139-144) before the button handlers run, so a capture or translation stored during a run is displayed only from the next run on; the user hears a new translation while the page still shows the previous one. The model states the slots, not the page.
- The table's size (39 entries) is not stated as a lemma; the resolver's behaviour is stated per listed and unlisted code instead.
- Streamlit's rerun-per-interaction model is taken as one `Rerun` per page interaction. Concurrent sessions and widget-state persistence beyond the two slots are not modelled.
