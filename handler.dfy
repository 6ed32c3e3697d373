/** The request handler of the text-to-speech proxy (api/tts.js): the ordered
    gate chain, the request it forwards to the provider, and the reply it
    shapes from the provider's answer. The network is a parameter: the
    provider is a function from the forwarded call to its answer. */
module Handler {
  import opened Wrappers
  import opened JsText
  import opened Voice
  import Base64

  /** The two secrets read from the environment; None stands for an unset
      variable. */
  datatype Config = Config(elevenLabsKey: Option<string>, proxyKey: Option<string>)

  /** What the handler reads from an inbound request: the HTTP method (`verb`), the
      `miguel` header, and the `text` and `voice_id` fields of the JSON body
      (None when the field, or the whole body, is absent). */
  datatype Request = Request(
    verb: string,
    miguel: Option<string>,
    text: Option<string>,
    voiceId: Option<string>)

  /** The JSON payload sent to the provider, without its fixed voice
      settings. */
  datatype Payload = Payload(text: string, modelId: string)

  /** The single outbound POST. */
  datatype UpstreamCall = UpstreamCall(url: string, apiKey: string, accept: string, payload: Payload)

  /** The provider's answer: the fetch failed, or it answered with a status,
      the body read as text (None if that read failed) and the body read as
      bytes (None if that read failed). */
  datatype Upstream =
    | NetworkFailure
    | Answered(status: int, text: Option<string>, audio: Option<seq<Base64.Byte>>)

  /** The JSON bodies the handler sends back. */
  datatype Body =
    | NoContent
    | Health(ok: bool, message: string)
    | Failure(error: string)
    | ProviderFailure(error: string, status: int, details: string)
    | Audio(audioBase64: string, dataUrl: string, mime: string)

  datatype Reply = Reply(status: int, body: Body)

  /** A request either ends at one of the gates or is forwarded. */
  datatype Decision = Respond(reply: Reply) | Forward(call: UpstreamCall)

  const MaxTextLength: nat := 1200
  const ModelId: string := "eleven_multilingual_v2"
  const AudioMime: string := "audio/mpeg"
  const DataUrlPrefix: string := "data:audio/mpeg;base64,"

  const HealthMessage: string := "OK - ElevenLabs TTS Proxy"
  const MethodNotAllowed: string := "Method Not Allowed"
  const MissingKey: string := "Missing ELEVENLABS_API_KEY"
  const Unauthorized: string := "Unauthorized"
  const MissingText: string := "Missing 'text' (string)"
  const TextTooLong: string := "Text too long (max 1200 chars)"
  const ProviderError: string := "ElevenLabs error"
  const InternalError: string := "Internal error"

  /** `(body.text ?? "")`: an absent text is the empty string. */
  function TextOf(req: Request): string {
    if req.text.Some? then req.text.value else ""
  }

  /** The proxy key guards the service only when it is set and non-empty;
      then the `miguel` header must be present and equal to it. */
  predicate Authorized(config: Config, req: Request) {
    !Truthy(config.proxyKey) || req.miguel == config.proxyKey
  }

  /** A text the proxy accepts: non-empty and at most 1200 UTF-16 units. */
  predicate ValidText(text: string) {
    text != [] && Utf16Length(text) <= MaxTextLength
  }

  /** Lines 10-69: the gates in source order, then the forwarded call. A
      request is forwarded exactly when it is a POST, the provider key is
      set, the caller is authorised and the text is valid; the forwarded
      call carries the caller's text unchanged to the endpoint of the
      resolved voice, with the provider key. */
  function Decide(config: Config, req: Request): (d: Decision)
    ensures d.Forward? <==>
      req.verb == "POST" && Truthy(config.elevenLabsKey) && Authorized(config, req) && ValidText(TextOf(req))
    ensures d.Forward? ==>
      d.call.url == StreamUrl(ResolveVoice(req.voiceId)) && d.call.payload.text == TextOf(req)
      && Some(d.call.apiKey) == config.elevenLabsKey
    ensures d.Respond? ==> d.reply.status in {200, 204, 400, 401, 405, 500}
  {
    if req.verb == "OPTIONS" then Respond(Reply(204, NoContent))
    else if req.verb == "GET" then Respond(Reply(200, Health(true, HealthMessage)))
    else if req.verb != "POST" then Respond(Reply(405, Failure(MethodNotAllowed)))
    else if !Truthy(config.elevenLabsKey) then Respond(Reply(500, Failure(MissingKey)))
    else if Truthy(config.proxyKey) && req.miguel != config.proxyKey then
      Respond(Reply(401, Failure(Unauthorized)))
    else
      var text := TextOf(req);
      if text == [] then Respond(Reply(400, Failure(MissingText)))
      else if Utf16Length(text) > MaxTextLength then Respond(Reply(400, Failure(TextTooLong)))
      else
        var voiceId := ResolveVoice(req.voiceId);
        Forward(UpstreamCall(StreamUrl(voiceId), config.elevenLabsKey.value, AudioMime,
                             Payload(text, ModelId)))
  }

  /** `resp.ok`: a status in 200-299. */
  predicate IsOk(status: int) {
    200 <= status <= 299
  }

  /** Lines 81-101: a failed status is passed on with the provider's text,
      a success becomes base64 audio, and any failure to reach the provider
      or to read its audio is the generic internal error. Audio is returned
      exactly for a successful answer whose bytes could be read; its data
      URL embeds the same base64 text, which decodes to the provider's
      bytes. */
  function Shape(up: Upstream): (r: Reply)
    ensures r.body.Audio? <==> up.Answered? && IsOk(up.status) && up.audio.Some?
    ensures r.body.Audio? ==>
      r.status == 200 && r.body.mime == AudioMime
      && r.body.dataUrl == DataUrlPrefix + r.body.audioBase64
      && Base64.Decode(r.body.audioBase64) == Some(up.audio.value)
    ensures up.Answered? && !IsOk(up.status) ==> r.status == up.status && r.body.ProviderFailure?
  {
    match up
    case NetworkFailure => Reply(500, Failure(InternalError))
    case Answered(status, text, audio) =>
      if !IsOk(status) then
        var details := if text.Some? then text.value else "";
        Reply(status, ProviderFailure(ProviderError, status, details))
      else if audio.None? then Reply(500, Failure(InternalError))
      else
        var b64 := Base64.Encode(audio.value);
        Base64.DecodeEncode(audio.value);
        Reply(200, Audio(b64, DataUrlPrefix + b64, AudioMime))
  }

  /** The whole handler: decide, and consult the provider only for a
      forwarded request. Every reply has one of the handler's own statuses,
      unless it passes on the failed status of the provider's answer to a
      forwarded request; audio is only ever the 200 answer to a forwarded
      request. */
  function Handle(config: Config, req: Request, provider: UpstreamCall -> Upstream): (r: Reply)
    ensures r.status in {200, 204, 400, 401, 405, 500}
      || (Decide(config, req).Forward? && provider(Decide(config, req).call).Answered?
          && !IsOk(r.status) && r.body.ProviderFailure?
          && r.status == provider(Decide(config, req).call).status)
    ensures r.body.Audio? ==> Decide(config, req).Forward? && r.status == 200
  {
    match Decide(config, req)
    case Respond(reply) => reply
    case Forward(call) => Shape(provider(call))
  }
}

/** What the handler promises, stated over all configurations, requests and
    provider behaviours. */
module HandlerProperties {
  import opened Wrappers
  import opened JsText
  import opened Voice
  import opened Handler
  import Base64

  /** A preflight is answered 204 with no body, before any configuration,
      authorisation or body check and without calling the provider. */
  lemma OptionsIsPreflight(config: Config, req: Request, provider: UpstreamCall -> Upstream)
    requires req.verb == "OPTIONS"
    ensures Handle(config, req, provider) == Reply(204, NoContent)
  {
  }

  /** A GET is the health check, whatever the configuration. */
  lemma GetIsHealthCheck(config: Config, req: Request, provider: UpstreamCall -> Upstream)
    requires req.verb == "GET"
    ensures Handle(config, req, provider) == Reply(200, Health(true, "OK - ElevenLabs TTS Proxy"))
  {
  }

  /** Every method other than OPTIONS, GET and POST is refused with 405. */
  lemma OtherMethodsRefused(config: Config, req: Request, provider: UpstreamCall -> Upstream)
    requires req.verb != "OPTIONS" && req.verb != "GET" && req.verb != "POST"
    ensures Handle(config, req, provider) == Reply(405, Failure("Method Not Allowed"))
  {
  }

  /** Without a provider key every POST fails with 500, whatever its header
      and body: the configuration check precedes authorisation and
      validation. */
  lemma MissingKeyPrecedes(config: Config, req: Request, provider: UpstreamCall -> Upstream)
    requires req.verb == "POST" && (config.elevenLabsKey == None || config.elevenLabsKey == Some(""))
    ensures Handle(config, req, provider) == Reply(500, Failure("Missing ELEVENLABS_API_KEY"))
  {
  }

  /** With a proxy key set, a POST whose `miguel` header is absent or differs
      from it is refused with 401 before its body is looked at. */
  lemma WrongProxyKeyRefused(config: Config, req: Request, provider: UpstreamCall -> Upstream)
    requires req.verb == "POST" && Truthy(config.elevenLabsKey)
    requires Truthy(config.proxyKey) && req.miguel != config.proxyKey
    ensures Handle(config, req, provider) == Reply(401, Failure("Unauthorized"))
  {
  }

  /** With no proxy key (unset or empty) the header plays no part: the proxy
      is open. */
  lemma OpenProxyIgnoresHeader(config: Config, req: Request, header: Option<string>)
    requires !Truthy(config.proxyKey)
    ensures Decide(config, req) == Decide(config, req.(miguel := header))
  {
  }

  /** An absent or empty text is refused with the missing-text message; the
      emptiness check comes before the length check. */
  lemma EmptyTextRefused(config: Config, req: Request, provider: UpstreamCall -> Upstream)
    requires req.verb == "POST" && Truthy(config.elevenLabsKey) && Authorized(config, req)
    requires req.text == None || req.text == Some("")
    ensures Handle(config, req, provider) == Reply(400, Failure("Missing 'text' (string)"))
  {
  }

  /** A text of more than 1200 UTF-16 code units is refused; one of exactly
      1200 is forwarded. */
  lemma TextLengthBoundary(config: Config, req: Request, provider: UpstreamCall -> Upstream)
    requires req.verb == "POST" && Truthy(config.elevenLabsKey) && Authorized(config, req)
    requires req.text.Some?
    ensures Utf16Length(req.text.value) > 1200 ==>
      Handle(config, req, provider) == Reply(400, Failure("Text too long (max 1200 chars)"))
    ensures Utf16Length(req.text.value) == 1200 ==> Decide(config, req).Forward?
  {
  }

  /** The limit counts code units, not characters: 601 characters outside
      the Basic Multilingual Plane are too long, 600 of them are not. */
  lemma {:induction false} AstralTextBoundary(config: Config, req: Request, provider: UpstreamCall -> Upstream)
    requires req.verb == "POST" && Truthy(config.elevenLabsKey) && Authorized(config, req)
    requires req.text.Some? && 600 <= |req.text.value| <= 601
    requires forall i :: 0 <= i < |req.text.value| ==> req.text.value[i] as int > 0xFFFF
    ensures |req.text.value| == 601 ==>
      Handle(config, req, provider) == Reply(400, Failure("Text too long (max 1200 chars)"))
    ensures |req.text.value| == 600 ==> Decide(config, req).Forward?
  {
    AstralLength(req.text.value);
  }

  /** A request that ends at a gate never reaches the provider: its reply
      does not depend on what the provider would do. */
  lemma GatesDoNotCallProvider(config: Config, req: Request, p: UpstreamCall -> Upstream, q: UpstreamCall -> Upstream)
    requires Decide(config, req).Respond?
    ensures Handle(config, req, p) == Handle(config, req, q)
  {
  }

  /** A forwarded request targets the streaming endpoint of its resolved
      voice and carries its text unchanged; an unknown voice reaches the URL
      exactly as the caller wrote it. */
  lemma {:induction false} ForwardedCall(config: Config, req: Request)
    requires Decide(config, req).Forward?
    ensures var call := Decide(config, req).call;
      && call.url == "https://api.elevenlabs.io/v1/text-to-speech/" + ResolveVoice(req.voiceId) + "/stream"
      && call.payload == Payload(req.text.value, "eleven_multilingual_v2")
      && call.accept == "audio/mpeg"
      && VoiceOfUrl(call.url) == Some(ResolveVoice(req.voiceId))
    ensures Truthy(req.voiceId) && ToLower(req.voiceId.value) !in VoiceIdMap ==>
      VoiceOfUrl(Decide(config, req).call.url) == req.voiceId
  {
    VoiceOfStreamUrl(ResolveVoice(req.voiceId));
  }

  /** A provider status outside 200-299 is returned to the client unchanged,
      with the provider's text as details, or "" when it could not be read. */
  lemma ProviderErrorPassedOn(status: int, text: Option<string>, audio: Option<seq<Base64.Byte>>)
    requires !(200 <= status <= 299)
    ensures Shape(Answered(status, text, audio))
      == Reply(status, ProviderFailure("ElevenLabs error", status, if text.Some? then text.value else ""))
  {
  }

  /** A network failure, or audio that cannot be read, is the generic 500
      with no detail. */
  lemma FailuresAreInternal(status: int, text: Option<string>)
    ensures Shape(NetworkFailure) == Reply(500, Failure("Internal error"))
    ensures 200 <= status <= 299 ==> Shape(Answered(status, text, None)) == Reply(500, Failure("Internal error"))
  {
  }

  /** The success scenario: "Hello" through an open proxy, answered with
      audio bytes, comes back as 200 with base64 that decodes to those bytes
      and a data URL built on it. */
  lemma {:induction false} HelloScenario(key: string, mp3: seq<Base64.Byte>, provider: UpstreamCall -> Upstream)
    requires key != ""
    requires provider(UpstreamCall(StreamUrl(RachelId), key, "audio/mpeg", Payload("Hello", "eleven_multilingual_v2")))
      == Answered(200, None, Some(mp3))
    ensures var r := Handle(Config(Some(key), None), Request("POST", None, Some("Hello"), None), provider);
      && r.status == 200 && r.body.Audio?
      && Base64.Decode(r.body.audioBase64) == Some(mp3)
      && r.body.dataUrl == "data:audio/mpeg;base64," + r.body.audioBase64
      && r.body.mime == "audio/mpeg"
  {
    var req := Request("POST", None, Some("Hello"), None);
    assert Utf16Length("Hello") == 5;
    assert Decide(Config(Some(key), None), req).Forward?;
  }

  /** The rate-limit scenario: a 429 "rate limited" from the provider
      reaches the client as 429 with those details. */
  lemma RateLimitScenario(config: Config, req: Request, provider: UpstreamCall -> Upstream)
    requires Decide(config, req).Forward?
    requires provider(Decide(config, req).call) == Answered(429, Some("rate limited"), None)
    ensures Handle(config, req, provider) == Reply(429, ProviderFailure("ElevenLabs error", 429, "rate limited"))
  {
  }
}
