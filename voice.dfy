/** Voice resolution and the provider endpoint it selects
    (api/tts.js, lines 44-60). */
module Voice {
  import opened Wrappers
  import opened JsText

  const RachelId: string := "21m00Tcm4TlvDq8ikWAM"

  /** The five friendly names the proxy knows, keyed in lower case. */
  const VoiceIdMap: map<string, string> := map[
    "rachel" := RachelId,
    "adam" := "pNInz6obpgDQGcFmaJgB",
    "bella" := "EXAVITQu4vr4xnSDxMaL",
    "antoni" := "ErXwobaYiN019PkySvjV",
    "domi" := "AZnzlk1XvdvUeBnXmlld"
  ]

  /** Every alias is at most six characters long ... */
  lemma AliasIsShort(key: string)
    requires key in VoiceIdMap
    ensures |key| <= 6
  {
  }

  /** Hence nothing longer than six characters is an alias. */
  lemma LongIsNoAlias(key: string)
    requires |key| > 6
    ensures key !in VoiceIdMap
  {
    if key in VoiceIdMap {
      AliasIsShort(key);
    }
  }

  /** ... and every provider id in the table is twenty, so no provider id is
      mistaken for an alias. */
  lemma ProviderIdIsLong(id: string)
    requires id in VoiceIdMap.Values
    ensures |id| == 20
  {
    var key :| key in VoiceIdMap && VoiceIdMap[key] == id;
  }

  /** The provider id sent for an optional `voice_id`: the default voice when
      it is absent or empty, the table's id when its lower-case form is an
      alias, and the caller's value unchanged otherwise. The result is never
      empty, and it is either a provider id from the table or exactly what
      the caller sent. */
  function ResolveVoice(v: Option<string>): (id: string)
    ensures id != ""
    ensures id in VoiceIdMap.Values || (Truthy(v) && id == v.value)
    ensures !Truthy(v) ==> id == RachelId
  {
    if !Truthy(v) then
      assert VoiceIdMap["rachel"] == RachelId;
      RachelId
    else
      var key := ToLower(v.value);
      if key in VoiceIdMap then VoiceIdMap[key] else v.value
  }

  /** Omitting `voice_id`, sending it empty, or naming "rachel" in any letter
      case all select the same provider id. */
  lemma RachelByAnyName(v: string)
    requires ToLower(v) == "rachel"
    ensures ResolveVoice(Some(v)) == ResolveVoice(None) == ResolveVoice(Some("")) == RachelId
  {
  }

  lemma CapitalisedRachel()
    ensures ResolveVoice(Some("Rachel")) == RachelId
  {
    var lower := ToLower("Rachel");
    assert |lower| == 6;
    assert lower[0] == 'r' && lower[1] == 'a' && lower[2] == 'c';
    assert lower[3] == 'h' && lower[4] == 'e' && lower[5] == 'l';
    assert lower == "rachel";
    RachelByAnyName("Rachel");
  }

  /** Alias lookup ignores ASCII letter case: two spellings of one alias
      resolve alike. */
  lemma ResolveCaseInsensitive(s: string, t: string)
    requires ToLower(s) == ToLower(t) && ToLower(s) in VoiceIdMap
    ensures ResolveVoice(Some(s)) == ResolveVoice(Some(t)) == VoiceIdMap[ToLower(s)]
  {
  }

  /** A non-empty value that is no alias in any letter case reaches the
      provider exactly as sent, not lower-cased. */
  lemma UnknownPassesThrough(s: string)
    requires s != "" && ToLower(s) !in VoiceIdMap
    ensures ResolveVoice(Some(s)) == s
  {
  }

  lemma Custom123PassesThrough()
    ensures ResolveVoice(Some("custom123")) == "custom123"
    ensures ResolveVoice(Some("Custom123")) == "Custom123"
  {
    LongIsNoAlias(ToLower("custom123"));
    LongIsNoAlias(ToLower("Custom123"));
  }

  /** A provider id taken from the table is left as it is: sending the id
      itself selects that same voice. */
  lemma {:induction false} ProviderIdsPassThrough(id: string)
    requires id in VoiceIdMap.Values
    ensures ResolveVoice(Some(id)) == id
  {
    ProviderIdIsLong(id);
    LongIsNoAlias(ToLower(id));
  }

  /** Resolving an already resolved id changes nothing. */
  lemma {:induction false} ResolveIdempotent(v: Option<string>)
    ensures ResolveVoice(Some(ResolveVoice(v))) == ResolveVoice(v)
  {
    var id := ResolveVoice(v);
    if id in VoiceIdMap.Values {
      ProviderIdsPassThrough(id);
    } else {
      assert Truthy(v) && id == v.value && ToLower(id) !in VoiceIdMap;
    }
  }

  const UrlPrefix: string := "https://api.elevenlabs.io/v1/text-to-speech/"
  const UrlSuffix: string := "/stream"

  /** The provider's streaming endpoint for a voice id: the id stands, as
      given, between the fixed prefix and suffix. */
  function StreamUrl(voiceId: string): (url: string)
    ensures |url| == |UrlPrefix| + |voiceId| + |UrlSuffix|
    ensures url[..|UrlPrefix|] == UrlPrefix
    ensures url[|UrlPrefix|..|UrlPrefix| + |voiceId|] == voiceId
    ensures url[|UrlPrefix| + |voiceId|..] == UrlSuffix
  {
    UrlPrefix + voiceId + UrlSuffix
  }

  /** The voice id can be read back from the endpoint, so distinct voices
      reach distinct endpoints. */
  function VoiceOfUrl(url: string): (id: Option<string>)
  {
    if |url| >= |UrlPrefix| + |UrlSuffix|
       && url[..|UrlPrefix|] == UrlPrefix
       && url[|url| - |UrlSuffix|..] == UrlSuffix
    then Some(url[|UrlPrefix|..|url| - |UrlSuffix|])
    else None
  }

  lemma VoiceOfStreamUrl(voiceId: string)
    ensures VoiceOfUrl(StreamUrl(voiceId)) == Some(voiceId)
  {
    var url := StreamUrl(voiceId);
    assert url[|url| - |UrlSuffix|..] == UrlSuffix;
  }

  lemma StreamUrlInjective(a: string, b: string)
    requires StreamUrl(a) == StreamUrl(b)
    ensures a == b
  {
    VoiceOfStreamUrl(a);
    VoiceOfStreamUrl(b);
  }

  // ---------------------------------------------------------------------
  // The lookup as written. `VOICE_ID_MAP` is a plain object literal, so an
  // index by a key the literal does not define still finds what the object
  // inherits from `Object.prototype`. Among those inherited members only
  // "constructor" and "__proto__" are spelled in lower case, so only they
  // survive the lower-casing; they yield the `Object` function and
  // `Object.prototype`, neither of which is `undefined`, so `??` keeps them
  // and the template literal renders them into the URL.
  // ---------------------------------------------------------------------

  /** Neither inherited member name is one of the five aliases. */
  lemma InheritedNamesAreNoAliases()
    ensures "constructor" !in VoiceIdMap && "__proto__" !in VoiceIdMap
  {
    LongIsNoAlias("constructor");
    LongIsNoAlias("__proto__");
  }

  /** What `VOICE_ID_MAP[key]` evaluates to, and how it renders in a string. */
  datatype JsLookup = Own(id: string) | Inherited(rendered: string) | Undefined

  /** The index for a key without ASCII capitals, as the lower-casing at
      line 56 produces; the other inherited members of `Object.prototype`
      ("toString", "valueOf", ...) all contain a capital and so never arise. */
  function LookupAsWritten(key: string): (r: JsLookup)
    requires forall i :: 0 <= i < |key| ==> !('A' <= key[i] <= 'Z')
    ensures r.Own? <==> key in VoiceIdMap
    ensures r.Undefined? <==> key !in VoiceIdMap && key != "constructor" && key != "__proto__"
  {
    if key in VoiceIdMap then Own(VoiceIdMap[key])
    else if key == "constructor" then Inherited("function Object() { [native code] }")
    else if key == "__proto__" then Inherited("[object Object]")
    else Undefined
  }

  /** Lines 53-58 as written, with the inherited members included. */
  function ResolveVoiceAsWritten(v: Option<string>): (id: string)
    ensures !Truthy(v) ==> id == RachelId
    ensures Truthy(v) && ToLower(v.value) == "constructor" ==> id == "function Object() { [native code] }"
    ensures Truthy(v) && ToLower(v.value) == "__proto__" ==> id == "[object Object]"
  {
    if !Truthy(v) then RachelId
    else
      var key := ToLower(v.value);
      InheritedNamesAreNoAliases();
      match LookupAsWritten(key)
      case Own(known) => known
      case Inherited(rendered) => rendered
      case Undefined => v.value
  }

  /** The as-written lookup differs from the intended one only for the two
      inherited member names. */
  lemma AsWrittenAgreesElsewhere(v: Option<string>)
    requires !Truthy(v) || (ToLower(v.value) != "constructor" && ToLower(v.value) != "__proto__")
    ensures ResolveVoiceAsWritten(v) == ResolveVoice(v)
  {
  }

  /** A `voice_id` of "constructor" is not passed through as an unknown id:
      the request goes to an endpoint named after the `Object` function,
      where the intended resolution keeps "constructor". */
  lemma ConstructorIsNotPassedThrough()
    ensures ResolveVoiceAsWritten(Some("constructor")) == "function Object() { [native code] }"
    ensures ResolveVoice(Some("constructor")) == "constructor"
  {
    ToLowerOfLower("constructor");
    LongIsNoAlias("constructor");
    UnknownPassesThrough("constructor");
  }

  /** Likewise "__proto__" renders as "[object Object]". */
  lemma ProtoIsNotPassedThrough()
    ensures ResolveVoiceAsWritten(Some("__proto__")) == "[object Object]"
    ensures ResolveVoice(Some("__proto__")) == "__proto__"
  {
    ToLowerOfLower("__proto__");
    LongIsNoAlias("__proto__");
    UnknownPassesThrough("__proto__");
  }
}
