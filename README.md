# Text-to-speech proxy: a Dafny model of its request handler

The repository is a single serverless HTTP handler (`api/tts.js`). It accepts
`{text, voice_id?}` in a POST, optionally checks a shared proxy key in the
`Miguel` header, maps a friendly voice name to an ElevenLabs voice id, forwards
the text to ElevenLabs' streaming text-to-speech endpoint and returns the audio
as base64 and as a `data:` URL.

The model states that handler as pure functions.

- `Handler.Decide` is the ordered gate chain. The checks run in this order: OPTIONS, GET, the method gate, the provider key, the proxy key, then text validation. It ends either in a fixed reply or in the one outbound call.
- `Voice.ResolveVoice` and `Voice.StreamUrl` are the alias table and the endpoint it selects.
- `Handler.Shape` turns the provider's answer into the client's reply.
- `Handler.Handle` composes them.

The provider is passed in as a function from the outbound call to its answer, so the network is a parameter. The two environment secrets are fields of a `Config` value. Strings are Dafny strings of Unicode scalar values. JavaScript's `text.length` is modelled as `JsText.Utf16Length`, which counts a character above U+FFFF as two code units. The base64 step is concrete. It is standard padded base64 as in section 4 of RFC 4648, and a decoder is proved to invert it.

Files:

- `wrappers.dfy`: `Option`, the absent-or-present value.
- `jstext.dfy`: JavaScript truthiness, UTF-16 length and ASCII lower-casing.
- `base64.dfy`: the encoder, the decoder and both round trips.
- `voice.dfy`: the alias table, voice resolution, the endpoint URL, and the lookup as written (see Findings).
- `handler.dfy`: the request/reply datatypes, `Decide`, `Shape`, `Handle`, and the module `HandlerProperties` with the handler's promises.

On three points the code tests JavaScript truthiness rather than presence, and the model follows the code:

- An empty `ELEVENLABS_API_KEY` counts as missing.
- An empty `PROXY_KEY` counts as not configured.
- An empty `voice_id` counts as omitted.

The model departs from the code in one place. `Handler.Decide` resolves the voice with the corrected `Voice.ResolveVoice`, not the lookup as written. For a `voice_id` of "constructor" or "__proto__" (in any ASCII case), its URL therefore differs from the one the code builds. See "## Findings" and "## Left out".

## Model

| member | source | states |
|---|---|---|
| Handler.Decide | api/tts.js:10-69 | a request is forwarded iff it is a POST, the provider key is non-empty, the caller is authorised and the text is non-empty and at most 1200 UTF-16 units; the forwarded call carries the text unchanged, the provider key, and the endpoint of the voice resolved by the corrected `Voice.ResolveVoice` (not the as-written lookup, see Findings); every other outcome is one of 200, 204, 400, 401, 405, 500 |
| Handler.Shape | api/tts.js:81-101 | audio is returned exactly for a 2xx answer whose bytes could be read, with status 200, mime audio/mpeg, data URL = "data:audio/mpeg;base64," + audio_base64, and audio_base64 decoding to the provider's bytes; a non-2xx status is passed on unchanged as a provider failure |
| Handler.Handle | api/tts.js:4-102 | every reply has status 200, 204, 400, 401, 405 or 500, unless it is a forwarded request whose provider answered with a non-2xx status, which the reply then carries as a provider failure; audio is only ever a 200 reply to a forwarded request |
| HandlerProperties.OptionsIsPreflight | api/tts.js:10-12 | OPTIONS gives 204 with no body whatever the configuration, headers, body or provider |
| HandlerProperties.GetIsHealthCheck | api/tts.js:14-16 | GET gives 200 {ok: true, message: "OK - ElevenLabs TTS Proxy"} whatever the configuration |
| HandlerProperties.OtherMethodsRefused | api/tts.js:18-20 | any method other than OPTIONS, GET, POST gives 405 "Method Not Allowed" |
| HandlerProperties.MissingKeyPrecedes | api/tts.js:26-28 | a POST with the provider key unset or empty gives 500 "Missing ELEVENLABS_API_KEY" whatever its header and body |
| HandlerProperties.WrongProxyKeyRefused | api/tts.js:29-31 | with a non-empty proxy key, a POST whose miguel header is absent or different gives 401 "Unauthorized" whatever its body |
| HandlerProperties.OpenProxyIgnoresHeader | api/tts.js:29 | with the proxy key unset or empty, the decision does not depend on the miguel header |
| HandlerProperties.EmptyTextRefused | api/tts.js:33-38 | an absent or empty text gives 400 "Missing 'text' (string)" |
| HandlerProperties.TextLengthBoundary | api/tts.js:40-42 | more than 1200 units gives 400 "Text too long (max 1200 chars)"; exactly 1200 is forwarded |
| HandlerProperties.AstralTextBoundary | api/tts.js:40 | the limit counts UTF-16 code units: 601 characters above U+FFFF are refused, 600 are forwarded |
| HandlerProperties.GatesDoNotCallProvider | api/tts.js:10-42 | a request stopped at a gate gets the same reply whatever the provider would answer |
| HandlerProperties.ForwardedCall | api/tts.js:60-79 | the call goes to "https://api.elevenlabs.io/v1/text-to-speech/" + resolved id + "/stream" with payload text = the request's text, model "eleven_multilingual_v2", Accept audio/mpeg; the voice id can be read back from the URL, and an unknown voice_id is read back exactly as sent (with the corrected resolution, so "constructor" and "__proto__" pass through here, unlike in the code as written) |
| HandlerProperties.ProviderErrorPassedOn | api/tts.js:81-88 | a status outside 200-299 is returned unchanged with {error: "ElevenLabs error", status, details}, details being the provider's text or "" when it could not be read |
| HandlerProperties.FailuresAreInternal | api/tts.js:98-101 | a failed fetch, or a 2xx whose bytes cannot be read, gives 500 "Internal error" |
| HandlerProperties.HelloScenario | api/tts.js:37-97 | POST "Hello" to an open proxy, answered 200 with bytes, gives 200 with audio_base64 decoding to those bytes and the matching data URL |
| HandlerProperties.RateLimitScenario | api/tts.js:81-88 | a provider 429 "rate limited" reaches the client as 429 with those details |
| Voice.ResolveVoice | api/tts.js:53-58 | the resolved id is never empty; it is a provider id from the table or exactly the caller's value; absent or empty resolves to rachel's id |
| Voice.AliasIsShort | api/tts.js:45-51 | every alias key has at most six characters |
| Voice.ProviderIdIsLong | api/tts.js:45-51 | every provider id in the table has twenty characters |
| Voice.LongIsNoAlias | api/tts.js:45-51 | a key longer than six characters is not an alias |
| Voice.RachelByAnyName | api/tts.js:53-57 | any spelling that lower-cases to "rachel", an absent voice_id and an empty one all resolve to 21m00Tcm4TlvDq8ikWAM |
| Voice.CapitalisedRachel | api/tts.js:56-57 | "Rachel" resolves to rachel's id |
| Voice.ResolveCaseInsensitive | api/tts.js:56-57 | two spellings of one alias that differ only in ASCII case resolve to the same table id |
| Voice.UnknownPassesThrough | api/tts.js:57 | a non-empty value that is no alias in any case is returned unchanged, not lower-cased |
| Voice.Custom123PassesThrough | api/tts.js:57 | "custom123" and "Custom123" pass through as sent |
| Voice.ProviderIdsPassThrough | api/tts.js:57 | a provider id from the table, sent as voice_id, resolves to itself |
| Voice.ResolveIdempotent | api/tts.js:53-58 | resolving an already resolved id gives the same id |
| Voice.StreamUrl | api/tts.js:60 | the URL is the fixed prefix, then the voice id as given, then "/stream" |
| Voice.VoiceOfStreamUrl | api/tts.js:60 | the voice id is recovered from the URL |
| Voice.StreamUrlInjective | api/tts.js:60 | distinct voice ids give distinct URLs |
| Voice.LookupAsWritten | api/tts.js:45-57 | for a key without ASCII capitals, as line 56 produces, an index into the object literal finds its own five keys, the inherited "constructor" and "__proto__", and nothing else |
| Voice.ResolveVoiceAsWritten | api/tts.js:53-58 | the code as written: absent or empty resolves to rachel's id; any ASCII-case spelling of "constructor" gives "function Object() { [native code] }" and of "__proto__" gives "[object Object]" |
| Voice.InheritedNamesAreNoAliases | api/tts.js:45-51 | neither "constructor" nor "__proto__" is one of the five own keys of the table |
| Voice.AsWrittenAgreesElsewhere | api/tts.js:53-58 | the as-written and the corrected resolution agree on every input except the two inherited names |
| Voice.ConstructorIsNotPassedThrough | api/tts.js:57 | voice_id "constructor" resolves, as written, to "function Object() { [native code] }" rather than passing through |
| Voice.ProtoIsNotPassedThrough | api/tts.js:57 | voice_id "__proto__" resolves, as written, to "[object Object]" rather than passing through |
| JsText.Utf16Length | api/tts.js:40 | text.length is between the number of characters and twice it, equal to it exactly when no character is above U+FFFF |
| JsText.AstralLength | api/tts.js:40 | a text of characters above U+FFFF has twice as many code units as characters |
| JsText.ToLower | api/tts.js:56 | lower-casing keeps the length, maps each character on its own, and leaves no ASCII capital |
| JsText.ToLowerOfLower | api/tts.js:56 | a string without ASCII capitals is its own lower-case form |
| JsText.ToLowerIdempotent | api/tts.js:56 | lower-casing twice equals lower-casing once |
| Base64.Encode | api/tts.js:90-91 | the encoding has 4 characters per started group of 3 bytes, all from the RFC 4648 alphabet except the final padding |
| Base64.Decode | api/tts.js:91-95 | an accepted string has a length that is a multiple of 4 and decodes to at most 3 bytes per group |
| Base64.DecodeEncode | api/tts.js:90-95 | decoding the encoding of any bytes gives those bytes back |
| Base64.EncodeDecode | api/tts.js:90-95 | every string the decoder accepts is the encoding of what it decodes to |
| Base64.CharSextet | api/tts.js:91 | a recognised character is the alphabet character of its index; the pad is not recognised |

## Left out

- The CORS `setHeader` calls (api/tts.js:6-8) and the mutation of the framework's `res` object are not modelled. The reply is a returned `Reply` value.
- `process.env` reads are not modelled. Both secrets are fields of `Config`.
- `fetch`, `await`, `resp.text()` and `resp.arrayBuffer()` are network I/O. The provider is a function parameter, and its answer (`Upstream`) says whether each read succeeded.
- `console.error` on the catch path is not modelled. Only the 500 "Internal error" reply is.
- The catch-all at line 98 covers any runtime exception. The model produces it only for a failed fetch and for unreadable audio, the two throwing points it models.
- The `voice_settings` floating-point constants (0.4, 0.8), the `Content-Type` header and the `JSON.stringify` serialisation are not modelled. The payload keeps its text and model id.
- Handler.Decide: builds its URL from the corrected `Voice.ResolveVoice` of "## Findings", not from the lookup as written. For a `voice_id` whose ASCII lower-case form is "constructor" or "__proto__", its URL therefore differs from the code's. The model sends that value through unchanged, while api/tts.js:57,60 renders the inherited `Object.prototype` member into the URL. The as-written behaviour is modelled separately by `Voice.ResolveVoiceAsWritten`.
- The coercion of non-string `text` and `voice_id` values (numbers, objects, booleans) through `toString()` / `String()` is not modelled. Both fields are strings or absent.
- Lone UTF-16 surrogates in `text` are not modelled, because a Dafny string cannot hold them. Every other string has its JavaScript length computed exactly.
- `JsText.ToLower`: models `toLowerCase` for ASCII letters only. This cannot change which alias matches. The only non-ASCII characters whose lower-case form contains an ASCII letter are U+212A (to "k") and U+0130 (to "i" plus U+0307), and no alias contains "k" or U+0307. This argument is not proved in Dafny.
- Node's `Buffer` internals are not modelled. Base64 is the RFC 4648 section 4 padded alphabet, which is what `toString("base64")` produces.
- Status codes are unbounded integers. The fetch API's 200-599 range for provider statuses is not imposed.

## Findings

| source | as written | input that shows it | evidently intended | confidence | as-written member | corrected member |
|---|---|---|---|---|---|---|
| api/tts.js:45-57 | `VOICE_ID_MAP[key] ?? voiceId` indexes a plain object literal, so the lower-cased key also finds members inherited from `Object.prototype`; they are not `undefined`, so `??` keeps them and the template literal renders them into the URL | voice_id "constructor" (or "Constructor", "__proto__") gives the URL ".../text-to-speech/function Object() { [native code] }/stream" (or ".../[object Object]/stream") | a value that is not one of the five aliases passes through unchanged ("leave as-is if it's an actual ID"), so the resolved id is a table id or exactly the caller's value | not executed; high | Voice.ConstructorIsNotPassedThrough | Voice.ResolveVoice |

`Voice.ResolveVoice` is the corrected resolution. It looks up own keys only, and `Handler.Decide` uses it. `Voice.AsWrittenAgreesElsewhere` proves that the two resolutions differ only on the two inherited names.

