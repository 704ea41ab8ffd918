# SDR-Bot: verified model of the chat state machine and the browser audio path

SDR-Bot is a sales-development chat widget for Red Switch. A Flask server
(`app.py`) answers `POST /chat` with a reply and the next conversation state,
and `POST /tts` with synthesised speech. A browser script
(`REDBOT/static/script.js`) keeps the conversation state, shows the lead
form, plays the bot's replies aloud by wrapping the server's raw PCM in a WAV
file, and handles the voice and microphone buttons.

This Dafny project models:

- `chat()` of app.py as pure functions (module `Backend`):
  - message normalisation: Python `strip()` then `lower()`, over ASCII (module `Text`);
  - the default state 0;
  - the four known states 0 (FAQ), 1 (yes/no), 2 (lead form) and 3 (ended), and the echo of unknown states;
  - the FAQ table, the constant `Backend.FaqAnswers` holding the thirteen questions and answers of `faq_answers` (app.py:49-63). The Backend lemmas take the table as a parameter, and `Backend.ServerTableRealisesAllTransitions` is stated for this constant;
  - the lead-submission branch. The Google-Sheets append is an outcome parameter: no sheet, the append succeeds, or it raises. The result says whether the row went to the sheet, to the CSV file, or nowhere.
- The empty-text guard of `tts()` (`Backend.Tts`). The speech model is a parameter.
- `pcmToWav` and `base64ToArrayBuffer` of script.js as imperative Dafny (module `Audio`):
  - a cursor over an `array<uint8>`;
  - `writeString`, `writeUint32` and `writeUint16`;
  - the sample loop and the char-code copy loop.

  Each is proved against a byte-level specification (`WavBytes`, `CharCodeBytes`). That specification has its own proved properties: the header fields, the length, and the decode round trip. The `rate=` regex and `parseInt` of `speakResponse` are modelled too.
- The widget's event handlers (module `Widget`):
  - first as step functions on a `Session` value, with the invariant that a visible form means state 2;
  - then as the class `ChatWidget`, whose fields are the script's module-level variables and the page state the handlers change. Each method is proved to perform its step.
- The two sides together (module `Integration`):
  - the request bodies the widget posts, answered by `chat()`;
  - the consequence of the field names the two sides disagree on (see Findings).

Modules: `Wrappers` (Option), `Bytes` (uint8, int16), `Text`, `ChatApi` (the
/chat JSON records), `Backend`, `Audio`, `Widget`, `Integration`.

## Model

| member | source | states |
|---|---|---|
| Text.LeadingCount | app.py:79 | the count of leading whitespace: every counted character is whitespace and the next one is not |
| Text.DropTrailing | app.py:79 | the result is a prefix of the input, all dropped characters are whitespace, and the result does not end in whitespace |
| Text.Strip | app.py:79 | the result is the slice after the leading whitespace, everything cut after it is whitespace, and it neither starts nor ends with whitespace |
| Text.PyStrip | app.py:79 | no contract of its own; Python `strip()` as `Strip` over Python whitespace, the form `Backend.NormaliseMessage` uses |
| Text.JsTrim | REDBOT/static/script.js:249 | no contract of its own; JavaScript `trim()` as `Strip` over JavaScript whitespace, used by `Widget.SendTurn` and `Widget.Persist` |
| Text.Lower | app.py:79 | no contract of its own; ASCII `lower()` character by character; `Text.LowerOfLowered` and `Text.LowerIsLowered` state its properties |
| Text.StripUnpadded | app.py:79 | stripping a string without whitespace at either end returns it unchanged |
| Text.StripPadded | app.py:79 | stripping whitespace-only padding around a string without whitespace at either end returns that string |
| Text.StripIdempotent | REDBOT/static/script.js:249 | stripping (Python strip or JS trim) twice equals stripping once |
| Text.LowerOfLowered | app.py:79 | `lower()` leaves a string without upper-case letters unchanged |
| Text.LowerIsLowered | app.py:79 | the result of `lower()` has no upper-case letter |
| Text.LowerKeepsWhitespace | app.py:79 | lower-casing preserves whether a character is whitespace, for both whitespace classes |
| Text.StripLowerIdempotent | app.py:79 | the normalisation strip-then-lower is idempotent |
| Backend.NormaliseMessage | app.py:79 | no contract of its own; the message with the default `''`, stripped then lower-cased; `Backend.ChatSeesNormalisedMessage`, `Backend.PaddedKeyReachesBranch` and `Text.StripLowerIdempotent` rely on it |
| Backend.CurrentState | app.py:80 | no contract of its own; the state with the default 0; `Backend.MissingStateIsZero` states it |
| Backend.Field | app.py:113-117 | no contract of its own; Python `dict.get`: the value when the key is present, `None` otherwise; `Backend.LeadRow` is built from it |
| Backend.LeadRow | app.py:113-117 | the five lead values in order name, contact_number, location, email, comments; position i is present exactly when its key is in `user_data`, and then holds that key's value |
| Backend.Truthy | app.py:120 | no contract of its own; Python truthiness of a `dict.get` result holding a string: present and non-empty; `Backend.LeadComplete` applies it to all five values |
| Backend.LeadComplete | app.py:120 | no contract of its own; all five values present and non-empty, the test `Backend.SheetAppend` and `Backend.CsvFallback` branch on |
| Backend.Respond | app.py:83-153 | the new state is an edge of the conversation graph (0→0,1,2; 1→0,1,3; 2→0,2; any other state to itself); a lead row is written only for the sentinel in state 2 |
| Backend.Chat | app.py:78-155 | the same, for the raw request: the new state follows the graph from the (defaulted) request state, and a row is written only when the normalised message is the sentinel in state 2 |
| Backend.Reply | app.py:155 | the JSON reply's `new_state` follows the conversation graph |
| Backend.ChatSeesNormalisedMessage | app.py:79 | only the normalised message matters: replacing the message by its normal form gives the same turn |
| Backend.MissingStateIsZero | app.py:80 | a request without `state` is answered exactly as one with state 0 |
| Backend.FaqStateTurns | app.py:87-96 | in state 0: "other queries"/"idle_timeout" go to 2; an FAQ key goes to 1 with a reply that starts with its answer followed by the follow-up question; anything else stays in 0 with the not-understood reply; nothing is written; each as an if-and-only-if |
| Backend.YesNoStateTurns | app.py:99-108 | in state 1: state 0 iff "yes", state 3 iff "no", state 1 iff neither; nothing is written |
| Backend.LeadStateTurns | app.py:111-147 | in state 2: any message but the sentinel gives the reminder and stays in 2; the sentinel stays in 2 iff the sheet is there, the lead is complete and the append raises, and otherwise goes to 0 with a row written |
| Backend.CsvFallback | app.py:120-143 | with no sheet, or any of the five fields missing or empty, the row goes to the CSV file with the CSV thanks text and state 0 |
| Backend.SheetAppend | app.py:120-129 | a complete lead is appended to the sheet with state 0 when the append succeeds, and gives the error text and state 2, writing nothing, when it raises |
| Backend.EndAndUnknownStates | app.py:151-153 | state 3, and any state outside 0-3 (which no branch catches, app.py:84), is returned unchanged with an empty reply and no write |
| Backend.KnownStatesClosed | app.py:86-153 | from a state in 0-3 the new state is in 0-3 |
| Backend.SheetMattersOnlyForCompleteLead | app.py:120-129 | if two sheet outcomes give different turns, the request was a complete lead submitted in state 2 |
| Backend.NormalFormIsFixed | app.py:91 | a stripped lower-case string (as every FAQ key is) is its own normal form |
| Backend.PaddedKeyReachesBranch | app.py:79-91 | a message that lower-cases to a stripped key, with any whitespace before and after it, normalises to that key, so it reaches the key's branch whatever its case and padding |
| Backend.LeadFormMessageIsNormal | app.py:112 | the sentinel "submit_lead_form" is in normal form |
| Backend.TransitionsRealised | app.py:86-153 | every edge of the conversation graph is taken by some message, for any table with a question and without some other string |
| Backend.ServerTableRealisesAllTransitions | app.py:49-63 | the server's own FAQ table realises every edge of the graph |
| Backend.Tts | app.py:160-178 | status 400 with "No text provided" iff the text is missing or empty; audio only when the speech model returned exactly that audio and MIME type for that text, and whenever it returned audio for a non-empty text the reply is that audio with that MIME type |
| Backend.TtsGuardPrecedesSynthesis | app.py:161-163 | for missing or empty text, the reply does not depend on the speech model |
| Backend.TtsAsksForTheText | app.py:165-178 | past the guard, the reply depends only on the model's answer for the requested text, and is the 500 error iff synthesis failed |
| Audio.Uint16LE | REDBOT/static/script.js:47-50 | two bytes that read back, little-endian, as the value modulo 2^16 |
| Audio.Uint32LE | REDBOT/static/script.js:42-45 | four bytes that read back, little-endian, as the value modulo 2^32 |
| Audio.SampleBytes | REDBOT/static/script.js:66-70 | two bytes per sample |
| Audio.ToUint8 | REDBOT/static/script.js:38 | no contract of its own; a number stored into one byte, taken modulo 256 as `setUint8` and a `Uint8Array` store do; `Audio.CharCodeBytes` and `Audio.Base64ToArrayBuffer` use it |
| Audio.CharCodeBytes | REDBOT/static/script.js:36-40 | no contract of its own; each character's code taken modulo 256, as a `Uint8` store does; `Audio.CharCodesOfBinaryString` and `Audio.WriteString` use it |
| Audio.ReadInt16 | REDBOT/static/script.js:221 | no contract of its own; one element of `new Int16Array(buffer)`: two bytes read little-endian as a signed 16-bit value; `Audio.Int16RoundTrip` and `Audio.Int16BytesRoundTrip` relate it to the `setInt16` write |
| Audio.DecodeSamples | REDBOT/static/script.js:221 | no contract of its own; an even-length buffer read as little-endian 16-bit samples; `Audio.DecodeSampleBytes` and `Audio.SampleBytesOfDecode` relate it to `Audio.SampleBytes` |
| Audio.Int16View | REDBOT/static/script.js:221 | an `Int16Array` view exists iff the byte length is even, with half as many samples as bytes |
| Audio.WavHeader | REDBOT/static/script.js:52-64 | the header is exactly 44 bytes |
| Audio.WavBytes | REDBOT/static/script.js:30-73 | no contract of its own; the bytes `pcmToWav` builds, header then samples; `Audio.PcmToWav` is proved to produce it and `Audio.WavRoundTrip` to invert it |
| Audio.RiffDescriptor | REDBOT/static/script.js:52-54 | exactly 12 bytes; `Audio.RiffFields` gives their contents and `Audio.WriteRiffDescriptor` writes them |
| Audio.FmtChunk | REDBOT/static/script.js:55-62 | exactly 24 bytes, the three `fmt ` groups in order; `Audio.FmtFields` gives their contents |
| Audio.FmtFormat | REDBOT/static/script.js:55-58 | exactly 12 bytes; `Audio.FmtFormatFields` gives their contents and `Audio.WriteFmtFormat` writes them |
| Audio.FmtRates | REDBOT/static/script.js:59-60 | exactly 8 bytes; `Audio.FmtRatesFields` gives their contents and `Audio.WriteFmtRates` writes them |
| Audio.FmtBlock | REDBOT/static/script.js:61-62 | exactly 4 bytes; `Audio.FmtBlockFields` gives their contents and `Audio.WriteFmtBlock` writes them |
| Audio.DataChunkHeader | REDBOT/static/script.js:63-64 | exactly 8 bytes; `Audio.DataFields` gives their contents and `Audio.WriteDataChunkHeader` writes them |
| Audio.RiffFields | REDBOT/static/script.js:52-54 | "RIFF", chunk size 36 + data length (mod 2^32), "WAVE" |
| Audio.FmtFormatFields | REDBOT/static/script.js:55-58 | "fmt ", size 16, format 1, one channel |
| Audio.FmtRatesFields | REDBOT/static/script.js:59-60 | sample rate and byte rate = 2 × rate, both mod 2^32 |
| Audio.FmtBlockFields | REDBOT/static/script.js:61-62 | block align 2, 16 bits per sample |
| Audio.FmtFields | REDBOT/static/script.js:55-62 | the whole `fmt ` sub-chunk, field by field at its offsets |
| Audio.DataFields | REDBOT/static/script.js:63-64 | "data", then the data length (mod 2^32) |
| Audio.HeaderFields | REDBOT/static/script.js:52-64 | every header field at its offset 0-43, in order, all integers little-endian |
| Audio.SampleBytesAt | REDBOT/static/script.js:66-70 | sample i occupies payload bytes 2i and 2i+1, little-endian |
| Audio.WavSampleAt | REDBOT/static/script.js:66-70 | in the file, sample i sits at byte offset 44 + 2i and reads back as itself |
| Audio.Int16RoundTrip | REDBOT/static/script.js:68 | a sample written with `setInt16` reads back as the same sample |
| Audio.Int16BytesRoundTrip | REDBOT/static/script.js:221 | two bytes read as a sample and written again are the same two bytes |
| Audio.DecodeSampleBytes | REDBOT/static/script.js:66-70 | decoding the payload returns the original samples |
| Audio.SampleBytesOfDecode | REDBOT/static/script.js:220-222 | viewing an even-length buffer as samples and writing them back reproduces the buffer |
| Audio.WavLength | REDBOT/static/script.js:32 | the file is 44 bytes plus the PCM byte length |
| Audio.HeaderIsPcmMono | REDBOT/static/script.js:52-64 | the written header passes the reader's format checks and declares the rate (mod 2^32) and the data length |
| Audio.WavRoundTrip | REDBOT/static/script.js:30-73 | reading the file back gives the sample rate (mod 2^32) and the original samples, whenever the chunk size fits in 32 bits |
| Audio.CharCodesOfBinaryString | REDBOT/static/script.js:79-81 | copying the char codes of a binary string built from bytes gives those bytes back |
| Audio.FirstRateMatch | REDBOT/static/script.js:219 | the leftmost position where `rate=` followed by a digit occurs, and no match before it |
| Audio.DigitRun | REDBOT/static/script.js:219 | the greedy `\d+`: the longest all-digit prefix |
| Audio.DecimalValue | REDBOT/static/script.js:219 | `parseInt` of k digits is below 10^k |
| Audio.DecimalString | REDBOT/static/script.js:219 | the decimal numeral of n: non-empty, all digits, no leading zero |
| Audio.DecimalRoundTrip | REDBOT/static/script.js:219 | `parseInt` of the numeral of n is n, for every n |
| Audio.DigitRunOfDigits | REDBOT/static/script.js:219 | the greedy `\d+` takes a whole digit run and stops at the next non-digit |
| Audio.ParseRate | REDBOT/static/script.js:219 | a rate is parsed iff `rate=` followed by a digit occurs somewhere in the MIME type, and its value is that of the longest digit run after the leftmost `rate=` that is followed by a digit |
| Audio.ParseRateReadsNumeral | REDBOT/static/script.js:219 | a MIME type whose leftmost `rate=` is followed by the numeral of n and then a non-digit or the end declares rate n |
| Audio.SpeechWav | REDBOT/static/script.js:219-222 | no contract of its own; the rate parse, the `Int16Array` view and `pcmToWav` chained as `speakResponse` does; `Audio.SpeechWavCarriesPcm` states its properties |
| Audio.SpeechWavCarriesPcm | REDBOT/static/script.js:216-222 | the WAV is produced iff the rate parses and the byte count is even; it is 44 bytes longer than the PCM, carries it unchanged and declares the parsed rate and the PCM length |
| Audio.Decimal24000 | REDBOT/static/script.js:219 | "24000" is read as 24000 |
| Audio.FirstRateMatch24000 | REDBOT/static/script.js:219 | in "audio/pcm;rate=24000" the regex first matches at offset 10 |
| Audio.ParseRate24000 | REDBOT/static/script.js:219 | "audio/pcm;rate=24000" gives rate 24000 |
| Audio.Speech24kHz | REDBOT/static/script.js:219-222 | a 24 kHz MIME type and 96000 PCM bytes give a header with rate 24000, byte rate 48000 and data length 96000 |
| Audio.Speech24kHzScenario | REDBOT/static/script.js:219-222 | the same for the literal MIME type "audio/pcm;rate=24000" |
| Audio.WriteString | REDBOT/static/script.js:36-40 | advances the cursor by the string's length and appends its char codes to what was written; the bytes after the cursor are untouched |
| Audio.WriteUint32 | REDBOT/static/script.js:42-45 | advances the cursor by 4 and appends the little-endian value mod 2^32; the bytes after the cursor are untouched |
| Audio.WriteUint16 | REDBOT/static/script.js:47-50 | advances the cursor by 2 and appends the little-endian value mod 2^16; the bytes after the cursor are untouched |
| Audio.WriteRiffDescriptor | REDBOT/static/script.js:52-54 | appends the RIFF descriptor; the bytes after the cursor are untouched |
| Audio.WriteFmtFormat | REDBOT/static/script.js:55-58 | appends tag, size, format and channel count; the bytes after the cursor are untouched |
| Audio.WriteFmtRates | REDBOT/static/script.js:59-60 | appends sample rate and byte rate; the bytes after the cursor are untouched |
| Audio.WriteFmtBlock | REDBOT/static/script.js:61-62 | appends block align and bits per sample; the bytes after the cursor are untouched |
| Audio.WriteDataChunkHeader | REDBOT/static/script.js:63-64 | appends "data" and the data length; the bytes after the cursor are untouched |
| Audio.WriteHeader | REDBOT/static/script.js:52-64 | leaves the cursor at 44 with the first 44 bytes equal to the specified header and the rest untouched |
| Audio.PcmToWav | REDBOT/static/script.js:30-73 | a fresh buffer whose contents are exactly the specified header followed by every sample, little-endian |
| Audio.Base64ToArrayBuffer | REDBOT/static/script.js:75-83 | fails iff `atob` throws; otherwise a fresh buffer as long as the binary string, byte i being char code i (mod 256) |
| Widget.VisitorPayload | REDBOT/static/script.js:352-359 | no contract of its own; the `user_data` object the lead form builds, with the keys as written; `Integration.WidgetLeadRow` states what the server reads from it |
| Widget.InitialSession | REDBOT/static/script.js:27-246 | no contract of its own; the page after loading; `Widget.FormOnlyInLeadState` starts from it and `Widget.ChatWidget.constructor` builds it |
| Widget.Persist | REDBOT/static/script.js:167-176 | no contract of its own; `sendMessage`: a non-blank text is appended to the log; `Widget.ChatWidget.SendMessage` performs it |
| Widget.Speak | REDBOT/static/script.js:196-197 | no contract of its own; with voice on the text is posted to /tts, otherwise nothing; `Widget.ChatWidget.SpeakResponse` performs it |
| Widget.ChatTurnRequest | REDBOT/static/script.js:260 | no contract of its own; the body a chat turn posts: trimmed message, current state, empty `user_data` |
| Widget.SendTurn | REDBOT/static/script.js:248-276 | no contract of its own; the chat-turn step; `Widget.ChatWidget.HandleSendMessage` performs it and `Widget.BlankInputIgnored`, `Widget.ChatTurnAdoptsServerState` and `Widget.ChatTurnFailureKeepsState` state its properties |
| Widget.ShowReply | REDBOT/static/script.js:264-275 | no contract of its own; adopting a reply; `Widget.ChatWidget.ShowServerReply` performs it |
| Widget.ClickFaq | REDBOT/static/script.js:342-347 | no contract of its own; an FAQ button puts its text in the input and sends it; `Widget.ChatWidget.ClickFaqButton` performs it |
| Widget.LeadRequest | REDBOT/static/script.js:364-368 | no contract of its own; the body the lead form posts: the sentinel message, current state and `Widget.VisitorPayload` |
| Widget.SubmitLead | REDBOT/static/script.js:350-381 | no contract of its own; the lead-submit step; `Widget.ChatWidget.SubmitLeadForm` performs it and `Widget.SubmissionHidesForm` and `Widget.SubmissionFailureChangesNothing` state its properties |
| Widget.ToggleVoice | REDBOT/static/script.js:97-100 | no contract of its own; the voice-button step; `Widget.ChatWidget.ToggleVoiceButton` performs it and `Widget.VoiceToggleRule` states it |
| Widget.ToggleMic | REDBOT/static/script.js:294-307 | no contract of its own; the mic-button step; `Widget.ChatWidget.ToggleMicButton` performs it and `Widget.MicToggleRule` states it |
| Widget.Greet | REDBOT/static/script.js:241-244 | no contract of its own; the delayed greeting spoken; `Widget.ChatWidget.GreetUser` performs it |
| Widget.Step | REDBOT/static/script.js:279-347 | no contract of its own; one handler run for one event (typing, filling the form, send click or Enter, FAQ click, submission, voice, mic, greeting); `Widget.StepKeepsInv` states what it keeps |
| Widget.Run | REDBOT/static/script.js:279-347 | no contract of its own; a sequence of events handled one after another; `Widget.RunKeepsInv` and `Widget.FormOnlyInLeadState` state what it keeps |
| Widget.BlankInputIgnored | REDBOT/static/script.js:249-250 | input that is blank after trimming sends nothing and changes nothing |
| Widget.ChatTurnAdoptsServerState | REDBOT/static/script.js:248-276 | a chat turn sets the state to the server's `new_state` whatever it was, shows the form iff that state is 2, clears the input, logs the trimmed message and speaks the reply iff voice is on; form contents, voice and mic settings are unchanged |
| Widget.ChatTurnFailureKeepsState | REDBOT/static/script.js:257-263 | when the request fails, state, form and voice and mic settings are unchanged; the message is already logged and the input cleared |
| Widget.SubmissionHidesForm | REDBOT/static/script.js:371-380 | a submission sets the state to `new_state` and always hides and resets the form, even when `new_state` is 2; input, log, voice and mic settings are unchanged |
| Widget.SubmissionFailureChangesNothing | REDBOT/static/script.js:361-371 | a failed submission changes nothing |
| Widget.VoiceToggleRule | REDBOT/static/script.js:97-100 | the voice button negates the flag, its label is "Voice On" iff the flag is on, two presses restore it, and with voice off nothing is spoken |
| Widget.MicToggleRule | REDBOT/static/script.js:294-306 | recording stops if it was on; otherwise it starts unless `start()` throws |
| Widget.SendKeepsInv | REDBOT/static/script.js:248-276 | a chat turn keeps "form visible ⇒ state 2" and the mic button in step with the flag |
| Widget.StepKeepsInv | REDBOT/static/script.js:246-381 | every handler keeps the invariant |
| Widget.RunKeepsInv | REDBOT/static/script.js:246-381 | every sequence of events keeps the invariant |
| Widget.FormOnlyInLeadState | REDBOT/static/script.js:246-381 | on every page session the lead form is visible only in state 2 |
| Widget.ChatWidget.constructor | REDBOT/static/script.js:246 | the initial page: state 0, voice on, mic off, form hidden and empty, nothing logged or spoken |
| Widget.ChatWidget.SetInput | REDBOT/static/script.js:12 | only the chat input changes |
| Widget.ChatWidget.FillForm | REDBOT/static/script.js:19-24 | only the form contents change |
| Widget.ChatWidget.SendMessage | REDBOT/static/script.js:167-176 | a message that is not blank is appended to the log; nothing else changes |
| Widget.ChatWidget.SpeakResponse | REDBOT/static/script.js:196-197 | the text is posted for speech iff voice is on; nothing else changes |
| Widget.ChatWidget.HandleSendMessage | REDBOT/static/script.js:248-276 | performs the chat-turn step, keeping the invariant |
| Widget.ChatWidget.ShowServerReply | REDBOT/static/script.js:264-275 | adopts the server's state, speaks the reply and shows the form iff the state is 2 |
| Widget.ChatWidget.ClickFaqButton | REDBOT/static/script.js:342-347 | puts the button's text in the input and performs a chat turn |
| Widget.ChatWidget.SubmitLeadForm | REDBOT/static/script.js:350-381 | performs the submission step, keeping the invariant |
| Widget.ChatWidget.ToggleVoiceButton | REDBOT/static/script.js:97-100 | performs the voice-toggle step |
| Widget.ChatWidget.ToggleMicButton | REDBOT/static/script.js:294-307 | performs the mic-toggle step, keeping the invariant |
| Widget.ChatWidget.GreetUser | REDBOT/static/script.js:240-244 | speaks the greeting iff voice is on |
| Integration.Server | app.py:71-155 | no contract of its own; the /chat endpoint as the widget sees it, `Backend.Reply` for a given table and sheet; the Integration lemmas are stated for it |
| Integration.WidgetLeadRow | app.py:113-117 | from the widget's payload the server reads name, location and email, and never contact_number or comments, so the lead is never complete |
| Integration.WidgetLeadSkipsSheet | REDBOT/static/script.js:352-368 | as written, a lead submitted in state 2 always goes to the CSV file with state 0 and empty contact and comments, whatever the sheet does |
| Integration.IntendedLeadRequest | app.py:113-117 | the corrected request: the server reads all five details the visitor typed |
| Integration.IntendedLeadReachesSheet | app.py:111-143 | with the corrected keys, a filled-in lead reaches the sheet (state 0) or keeps the form open on a failed append (state 2); a lead with an empty field goes to the CSV file |
| Integration.WidgetSubmissionAlwaysSucceeds | REDBOT/static/script.js:350-381 | as written, a submission in state 2 always returns the widget to state 0 with the form hidden and reset and the CSV thanks spoken if voice is on |
| Integration.OtherQueriesOpensForm | REDBOT/static/script.js:342-347 | in state 0, a button or message that normalises to "other queries" or "idle_timeout" opens the lead form (state 2) |
| Integration.WidgetFollowsServerGraph | REDBOT/static/script.js:257-275 | with one request in flight at a time, every chat turn and every submission moves the widget's state along an edge of the server's conversation graph |

## Left out

- Firebase initialisation, authentication, anonymous IDs, localStorage and the Firestore reads and the live subscription (script.js:103-165): a third-party SDK and network I/O. The persisted log is a sequence in the session, and a failing `addDoc` is not modelled. That failure would abort `handleSendMessage` before the fetch.
- DOM rendering, scrolling, textarea resizing and `innerHTML` (script.js:86-91, 178-194): UI. The bot's replies are displayed but not persisted, so they do not appear in the log.
- `fetch`, JSON parsing, `Audio` playback, object URLs and the loading indicator (script.js:199-235, 257-263, 361-371): network and media I/O. A server is a function from request to reply, with `None` for a rejected fetch or a body that is not JSON. A speech request is recorded as the text sent to /tts.
- The Web Speech API callbacks `onstart`, `onresult`, `onend` and `onerror` (script.js:309-334) and the unsupported-browser branch (script.js:335-338): browser API. Only the mic button's flag logic is modelled. For instance, `onend` removes the `recording` class while `isMicRecording` stays true, and that is not modelled.
- Widget.InitialSession: the voice button's initial label comes from the page markup, which is not part of this model, so it is a parameter. The other initial values also come from that markup and are taken as its evident defaults: the lead form hidden, the form fields empty and the input empty. `Widget.FormOnlyInLeadState` depends on the form starting hidden.
- Widget.Step, Widget.ChatWidget.HandleSendMessage, Widget.ChatWidget.ClickFaqButton, Widget.ChatWidget.SubmitLeadForm, Integration.WidgetFollowsServerGraph: each handler runs as one atomic step, from reading the state to applying the reply. In the page the handlers are asynchronous, awaiting the fetch and its JSON (script.js:252-263, 361-371), and nothing prevents a second send, FAQ click, "Other Queries" click or lead submission while a request is in flight. Overlapping requests and replies that arrive out of order are not modelled. For example, in state 0 an FAQ click followed by "Other Queries" before the first reply sends two requests in state 0, and the replies may leave the widget moving 1 to 2 or 2 to 1, neither of which is an edge of the server's graph. `Widget.Inv` still holds under such interleavings, because each state and form update happens in one synchronous block.
- Gemini TTS generation, the base64 encoding on the server and the inline-data search (app.py:165-178): foreign calls. The speech model is a parameter returning audio or failure.
- `atob` (RFC 4648 section 4, forgiving base64): a parameter returning the binary string or `None` where it throws.
- Flask routing, CORS and the gspread and Firebase admin set-up (app.py:1-46, 65-68): framework and foreign calls.
- The actual `append_row`, the CSV file creation and writes, and `time.strftime` timestamps (app.py:120-143): file and remote I/O. The sheet is an outcome parameter, and the turn reports which sink received the five values. The timestamp column and the CSV header row are not modelled, and neither is an exception raised while writing the CSV file.
- Non-string JSON values, such as a null `message`, a non-integer `state` or non-string lead fields: the request record types exclude them.
- Unicode semantics of Python `strip()`/`lower()` and JavaScript `trim()`: all three are over ASCII. `charCodeAt` returns a UTF-16 code unit; the model takes the character's code point, which is the same for the ASCII tags written into the header and for every character of `atob`'s output, and the binary strings `atob` returns never exceed 0xFF.
- Audio.PcmToWav: takes the samples as an `int16` array and assumes that `pcm16.buffer` is exactly the array's bytes, as it is for the `Int16Array` `speakResponse` builds. The default `sampleRate = 24000` is not modelled because the only caller always passes the parsed rate.
- Audio.Int16View: reads each sample little-endian. `new Int16Array(pcmData)` (script.js:221) uses the platform's byte order, which the ECMAScript standard leaves to the implementation, while the `DataView` writes are always little-endian. The model takes a little-endian platform, as every platform browsers run on is. On a big-endian platform `pcmToWav` would swap the two bytes of each sample, and `Audio.SampleBytesOfDecode` and `Audio.SpeechWavCarriesPcm` would not describe script.js:220-222; that case is not modelled.
- Audio.ParseRate: models the rate as an unbounded integer, and does not model `parseInt`'s loss of precision above 2^53. The rate is stored modulo 2^32 as `setUint32` does.
- Backend.NormalFormIsFixed: proves that any stripped lower-case key is its own normal form, but not that each of the thirteen literal FAQ keys is such a string. The character-by-character proof over the literal table is too expensive for the verifier.
- Backend: the lemmas are stated for an arbitrary FAQ table, because loading the literal answers into every proof is too costly. `Backend.ServerTableRealisesAllTransitions` is the one proof about the server's own table.

## Findings

| source | as written | input that shows it | evidently intended | confidence | as-written member | corrected member |
|---|---|---|---|---|---|---|
| REDBOT/static/script.js:352-359 | the lead form sends the contact number under `contact` and the query under `query`, but the server reads `contact_number` and `comments` (app.py:114-117), so its five-field test (app.py:120) always fails and every lead goes to the CSV file with contact and comments empty, even when the sheet works | a form with every field filled in, e.g. all "x", submitted in state 2 with a working sheet: CSV row [x, None, x, x, None], state 0 | the same five details reach the server under the keys it reads, so a complete lead is appended to the sheet | high (not executed) | Integration.WidgetLeadSkipsSheet | Integration.IntendedLeadReachesSheet |

`Widget.SubmitLead` keeps the payload as written, because the widget model
follows script.js. `Integration.IntendedLeadRequest` is the corrected request
built from the same session, and `Integration.IntendedLeadReachesSheet`
proves the intended behaviour for it against `chat()`.
