/** Speech output in the browser: the `voiceChat` object of voice-chat.js together with the
    Tortoise extension that tortoise-tts.js merges into it with `Object.assign`. HTTP is a
    scripted list of replies, one consumed by each request; the requests made are logged. */
module VoiceChat {
  import opened Wrappers

  /** `validOpenAIVoices`. */
  const OpenAIVoices: seq<string> := ["alloy", "echo", "fable", "onyx", "nova", "shimmer"]
  /** The dropdown value that selects the cloned Goggins voice. */
  const TortoiseVoice: string := "tortoise_goggins"

  /** `settings`; `speed` is held as the text JavaScript prints for the number. */
  datatype VoiceSettings = VoiceSettings(enabled: bool, speechRecognitionEnabled: bool,
                                         voice: string, model: string, speed: string)

  const DefaultVoiceSettings := VoiceSettings(true, false, "onyx", "tts-1", "1.1")

  /** `tortoiseConfig`. */
  datatype TortoiseConfig = TortoiseConfig(enabled: bool, voiceName: string, preset: string,
                                           useForAll: bool, fallbackToDefault: bool)

  const DefaultTortoiseConfig := TortoiseConfig(true, "goggins", "fast", true, true)

  /** The keys present in a parsed settings object. */
  datatype SavedVoiceSettings = SavedVoiceSettings(enabled: Option<bool>,
                                                   speechRecognitionEnabled: Option<bool>,
                                                   voice: Option<string>, model: Option<string>,
                                                   speed: Option<string>)

  datatype SavedTortoiseConfig = SavedTortoiseConfig(enabled: Option<bool>, voiceName: Option<string>,
                                                     preset: Option<string>, useForAll: Option<bool>,
                                                     fallbackToDefault: Option<bool>)

  /** What `localStorage` held under a settings key. */
  datatype Saved<T> = NothingSaved | Unparsable | Parsed(value: T)

  /** `{ ...current, ...parsed }` for the voice settings. */
  function Overlay(s: VoiceSettings, p: SavedVoiceSettings): (r: VoiceSettings)
    ensures p.enabled.Some? ==> r.enabled == p.enabled.value
    ensures p.enabled.None? ==> r.enabled == s.enabled
    ensures p.speechRecognitionEnabled.Some? ==> r.speechRecognitionEnabled == p.speechRecognitionEnabled.value
    ensures p.speechRecognitionEnabled.None? ==> r.speechRecognitionEnabled == s.speechRecognitionEnabled
    ensures p.voice.Some? ==> r.voice == p.voice.value
    ensures p.voice.None? ==> r.voice == s.voice
    ensures p.model.Some? ==> r.model == p.model.value
    ensures p.model.None? ==> r.model == s.model
    ensures p.speed.Some? ==> r.speed == p.speed.value
    ensures p.speed.None? ==> r.speed == s.speed
  {
    VoiceSettings(p.enabled.GetOr(s.enabled),
                  p.speechRecognitionEnabled.GetOr(s.speechRecognitionEnabled),
                  p.voice.GetOr(s.voice), p.model.GetOr(s.model), p.speed.GetOr(s.speed))
  }

  /** `{ ...tortoiseConfig, ...parsed }`. */
  function OverlayConfig(c: TortoiseConfig, p: SavedTortoiseConfig): (r: TortoiseConfig)
    ensures p.enabled.Some? ==> r.enabled == p.enabled.value
    ensures p.enabled.None? ==> r.enabled == c.enabled
    ensures p.voiceName.Some? ==> r.voiceName == p.voiceName.value
    ensures p.voiceName.None? ==> r.voiceName == c.voiceName
    ensures p.preset.Some? ==> r.preset == p.preset.value
    ensures p.preset.None? ==> r.preset == c.preset
    ensures p.useForAll.Some? ==> r.useForAll == p.useForAll.value
    ensures p.useForAll.None? ==> r.useForAll == c.useForAll
    ensures p.fallbackToDefault.Some? ==> r.fallbackToDefault == p.fallbackToDefault.value
    ensures p.fallbackToDefault.None? ==> r.fallbackToDefault == c.fallbackToDefault
  {
    TortoiseConfig(p.enabled.GetOr(c.enabled), p.voiceName.GetOr(c.voiceName),
                   p.preset.GetOr(c.preset), p.useForAll.GetOr(c.useForAll),
                   p.fallbackToDefault.GetOr(c.fallbackToDefault))
  }

  /** Loading saved settings: an overlay when they parse, the current ones otherwise. */
  function LoadedSettings<S, P>(current: S, saved: Saved<P>, overlay: (S, P) -> S): S
  {
    if saved.Parsed? then overlay(current, saved.value) else current
  }

  /** Overlaying the same saved object twice gives what overlaying it once does. */
  lemma OverlayIdempotent(s: VoiceSettings, p: SavedVoiceSettings, c: TortoiseConfig, q: SavedTortoiseConfig)
    ensures Overlay(Overlay(s, p), p) == Overlay(s, p)
    ensures OverlayConfig(OverlayConfig(c, q), q) == OverlayConfig(c, q)
  {
  }

  /** A request body sent to `/api/tts` or to `/api/tortoise-tts`. */
  datatype AudioRequest = TtsRequest(text: string, voice: string, speed: string)
                        | TortoiseRequest(text: string, voice: string, preset: string)

  /** A response: OK with the object URL made from its audio, or anything else (a non-OK
      status or a thrown error). */
  datatype AudioReply = AudioOk(url: string) | AudioFailed

  /** What a speech call resolves to: an audio URL, `null`, a rejected promise, or still
      running after the allowed number of fallbacks. */
  datatype Speech = Audio(url: string) | NoAudio | Rejected | Unfinished

  /** The two `textToSpeech` implementations: the routing of voice-chat.js and
      `textToSpeechWithTortoise`. */
  datatype Dispatch = Routing | WithTortoise

  /** The state of `voiceChat` as the speech calls see it. `extended` says the Tortoise
      extension was merged in, so `generateTortoiseAudio` is its version; `current` is the
      installed `textToSpeech`, `original` is `originalTextToSpeech` (absent before setup). */
  datatype Client = Client(settings: VoiceSettings, config: TortoiseConfig,
                           cache: map<string, string>, sent: seq<AudioRequest>,
                           network: seq<AudioReply>, extended: bool,
                           current: Dispatch, original: Option<Dispatch>)

  function OpenAIKey(voice: string, speed: string, text: string): string
  {
    "openai_" + voice + "_" + speed + "_" + text
  }

  /** The key voice-chat.js's own `generateTortoiseAudio` uses. */
  function GogginsKey(text: string): string
  {
    "tortoise_goggins_" + text
  }

  /** The key the extension's `generateTortoiseAudio` uses. */
  function TortoiseKey(voiceName: string, text: string): string
  {
    "tortoise_" + voiceName + "_" + text
  }

  /** A Tortoise key and an OpenAI key are never equal: they differ in the second letter. */
  lemma KeysNeverCollide(voiceName: string, text: string, voice: string, speed: string, text2: string)
    ensures GogginsKey(text) != OpenAIKey(voice, speed, text2)
    ensures TortoiseKey(voiceName, text) != OpenAIKey(voice, speed, text2)
  {
    assert GogginsKey(text)[1] == 'o' && OpenAIKey(voice, speed, text2)[1] == 'p';
    assert TortoiseKey(voiceName, text)[1] == 'o';
  }

  /** With the default voice name the two Tortoise implementations share cache entries. */
  lemma DefaultKeysShared(text: string)
    ensures TortoiseKey(DefaultTortoiseConfig.voiceName, text) == GogginsKey(text)
  {
  }

  /** One request: it is logged, and the next scripted reply answers it (none left is a
      network failure). */
  function Fetch(c: Client, req: AudioRequest): (AudioReply, Client)
  {
    if c.network == [] then (AudioFailed, c.(sent := c.sent + [req]))
    else (c.network[0], c.(sent := c.sent + [req], network := c.network[1..]))
  }

  /** What a speech call may change: the cache only gains entries (none is replaced or
      removed), requests are only appended, and the settings and installed methods stay. */
  ghost predicate Evolves(c: Client, d: Client)
  {
    && d.settings == c.settings && d.config == c.config && d.extended == c.extended
    && d.current == c.current && d.original == c.original
    && (forall k :: k in c.cache ==> k in d.cache && d.cache[k] == c.cache[k])
    && |c.sent| <= |d.sent| && d.sent[..|c.sent|] == c.sent
  }

  /** A URL a call resolves to is in the cache afterwards. */
  ghost predicate Settled(r: (Speech, Client))
  {
    r.0.Audio? ==> r.0.url in r.1.cache.Values
  }

  /** Without any reply to consume nothing is cached. */
  ghost predicate OfflineKeeps(c: Client, d: Client)
  {
    c.network == [] ==> d.network == [] && d.cache == c.cache
  }

  /** `generateOpenAIAudio(text, voice)`. */
  function OpenAIAudio(c: Client, text: string, voice: Option<string>): (r: (Speech, Client))
    ensures Evolves(c, r.1) && Settled(r) && OfflineKeeps(c, r.1)
    ensures var v := voice.GetOr(c.settings.voice);
      && (v !in OpenAIVoices ==> r == (NoAudio, c))
      && (v in OpenAIVoices && OpenAIKey(v, c.settings.speed, text) in c.cache ==>
            r == (Audio(c.cache[OpenAIKey(v, c.settings.speed, text)]), c))
      && (v in OpenAIVoices && OpenAIKey(v, c.settings.speed, text) !in c.cache ==>
            && r.1.sent == c.sent + [TtsRequest(text, v, c.settings.speed)]
            && (r.0.Audio? <==> c.network != [] && c.network[0].AudioOk?)
            && r.1.cache == if r.0.Audio? then c.cache[OpenAIKey(v, c.settings.speed, text) := r.0.url]
                            else c.cache)
  {
    var v := voice.GetOr(c.settings.voice);
    if v !in OpenAIVoices then (NoAudio, c)
    else
      var key := OpenAIKey(v, c.settings.speed, text);
      if key in c.cache then (Audio(c.cache[key]), c)
      else
        var (reply, c1) := Fetch(c, TtsRequest(text, v, c.settings.speed));
        if reply.AudioOk? then
          assert c1.cache[key := reply.url][key] == reply.url;
          (Audio(reply.url), c1.(cache := c1.cache[key := reply.url]))
        else (NoAudio, c1)
  }

  /** voice-chat.js's `generateTortoiseAudio`: a cached URL, else one request for the
      "goggins" voice with preset "fast", cached on success; a failure falls back to OpenAI
      with "onyx". */
  function GogginsAudio(c: Client, text: string): (r: (Speech, Client))
    ensures Evolves(c, r.1) && Settled(r) && OfflineKeeps(c, r.1)
    ensures GogginsKey(text) in c.cache ==> r == (Audio(c.cache[GogginsKey(text)]), c)
    ensures GogginsKey(text) !in c.cache ==>
      && |r.1.sent| > |c.sent|
      && r.1.sent[|c.sent|] == TortoiseRequest(text, "goggins", "fast")
      && (c.network != [] && c.network[0].AudioOk? ==>
            r == (Audio(c.network[0].url),
                  Fetch(c, r.1.sent[|c.sent|]).1.(cache := c.cache[GogginsKey(text) := c.network[0].url])))
      && (!(c.network != [] && c.network[0].AudioOk?) ==>
            r == OpenAIAudio(Fetch(c, r.1.sent[|c.sent|]).1, text, Some("onyx")))
  {
    var key := GogginsKey(text);
    if key in c.cache then (Audio(c.cache[key]), c)
    else
      var (reply, c1) := Fetch(c, TortoiseRequest(text, "goggins", "fast"));
      if reply.AudioOk? then
          assert c1.cache[key := reply.url][key] == reply.url;
          (Audio(reply.url), c1.(cache := c1.cache[key := reply.url]))
      else OpenAIAudio(c1, text, Some("onyx"))
  }

  /** The installed `textToSpeech`. `fuel` bounds the number of calls to
      `originalTextToSpeech` a fallback may make; `Unfinished` means it ran out. */
  function Speak(c: Client, text: string, fuel: nat): (r: (Speech, Client))
    ensures Evolves(c, r.1) && Settled(r) && OfflineKeeps(c, r.1)
    ensures r == Call(c, c.current, text, fuel)
    decreases fuel, 4
  {
    Call(c, c.current, text, fuel)
  }

  /** Running one of the two `textToSpeech` implementations. `textToSpeechWithTortoise`
      uses the extension only for the Tortoise voice with Tortoise enabled, and otherwise
      hands over to `originalTextToSpeech`. */
  function Call(c: Client, d: Dispatch, text: string, fuel: nat): (r: (Speech, Client))
    ensures Evolves(c, r.1) && Settled(r) && OfflineKeeps(c, r.1)
    ensures d == Routing ==> r == Route(c, text, fuel)
    ensures d == WithTortoise && c.settings.voice == TortoiseVoice && c.config.enabled ==>
      r == TortoiseAudio(c, text, fuel)
    ensures d == WithTortoise && !(c.settings.voice == TortoiseVoice && c.config.enabled) ==>
      r == CallOriginal(c, text, fuel)
    decreases fuel, 3
  {
    match d
    case Routing => Route(c, text, fuel)
    case WithTortoise =>
      if c.settings.voice == TortoiseVoice && c.config.enabled then TortoiseAudio(c, text, fuel)
      else CallOriginal(c, text, fuel)
  }

  /** voice-chat.js's `textToSpeech`: nothing when voice is off; the Tortoise voice goes to
      `generateTortoiseAudio` (the extension's version once it is merged in), one of the six
      OpenAI voices to OpenAI with that voice, and any other voice to OpenAI with "onyx". */
  function Route(c: Client, text: string, fuel: nat): (r: (Speech, Client))
    ensures Evolves(c, r.1) && Settled(r) && OfflineKeeps(c, r.1)
    ensures !c.settings.enabled ==> r == (NoAudio, c)
    ensures c.settings.enabled && c.settings.voice != TortoiseVoice ==>
      r == OpenAIAudio(c, text, if c.settings.voice in OpenAIVoices then None else Some("onyx"))
    ensures c.settings.enabled && c.settings.voice == TortoiseVoice ==>
      r == if c.extended then TortoiseAudio(c, text, fuel) else GogginsAudio(c, text)
    decreases fuel, 2
  {
    if !c.settings.enabled then (NoAudio, c)
    else if c.settings.voice == TortoiseVoice then
      (if c.extended then TortoiseAudio(c, text, fuel) else GogginsAudio(c, text))
    else if c.settings.voice in OpenAIVoices then OpenAIAudio(c, text, None)
    else OpenAIAudio(c, text, Some("onyx"))
  }

  /** The extension's `generateTortoiseAudio`: a cached URL, else one request with the
      configured voice name and preset, cached on success; a failure calls
      `originalTextToSpeech` when `fallbackToDefault` is set and resolves to `null` when
      it is not. */
  function TortoiseAudio(c: Client, text: string, fuel: nat): (r: (Speech, Client))
    ensures Evolves(c, r.1) && Settled(r) && OfflineKeeps(c, r.1)
    ensures TortoiseKey(c.config.voiceName, text) in c.cache ==>
      r == (Audio(c.cache[TortoiseKey(c.config.voiceName, text)]), c)
    ensures TortoiseKey(c.config.voiceName, text) !in c.cache ==>
      |r.1.sent| > |c.sent| &&
      r.1.sent[|c.sent|] == TortoiseRequest(text, c.config.voiceName, c.config.preset)
    ensures var key := TortoiseKey(c.config.voiceName, text);
      var c1 := Fetch(c, TortoiseRequest(text, c.config.voiceName, c.config.preset)).1;
      && (key !in c.cache && c.network != [] && c.network[0].AudioOk? ==>
            r == (Audio(c.network[0].url), c1.(cache := c.cache[key := c.network[0].url])))
      && (key !in c.cache && !(c.network != [] && c.network[0].AudioOk?) ==>
            r == if c.config.fallbackToDefault then CallOriginal(c1, text, fuel) else (NoAudio, c1))
    decreases fuel, 1
  {
    var key := TortoiseKey(c.config.voiceName, text);
    if key in c.cache then (Audio(c.cache[key]), c)
    else
      var (reply, c1) := Fetch(c, TortoiseRequest(text, c.config.voiceName, c.config.preset));
      if reply.AudioOk? then
          assert c1.cache[key := reply.url][key] == reply.url;
          (Audio(reply.url), c1.(cache := c1.cache[key := reply.url]))
      else if c1.config.fallbackToDefault then CallOriginal(c1, text, fuel)
      else (NoAudio, c1)
  }

  /** Calling `originalTextToSpeech`. Before setup it is undefined, so the call throws
      inside the `catch` and the promise rejects. */
  function CallOriginal(c: Client, text: string, fuel: nat): (r: (Speech, Client))
    ensures Evolves(c, r.1) && Settled(r) && OfflineKeeps(c, r.1)
    ensures c.original.None? ==> r == (Rejected, c)
    ensures c.original.Some? && fuel == 0 ==> r == (Unfinished, c)
    ensures c.original.Some? && fuel > 0 ==> r == Call(c, c.original.value, text, fuel - 1)
    decreases fuel, 0
  {
    if c.original.None? then (Rejected, c)
    else if fuel == 0 then (Unfinished, c)
    else Call(c, c.original.value, text, fuel - 1)
  }

  /** Once set up over voice-chat.js's routing, the extension changes nothing for a voice
      it does not handle: the call goes to the routing, which sends a voice other than the
      Tortoise voice to OpenAI (or nowhere when voice is off). */
  lemma InstalledDelegatesToRouting(c: Client, text: string, fuel: nat)
    requires c.original == Some(Routing) && fuel > 0
    requires !(c.settings.voice == TortoiseVoice && c.config.enabled)
    ensures Call(c, WithTortoise, text, fuel) == Route(c, text, fuel - 1)
    ensures c.settings.voice != TortoiseVoice ==>
      Call(c, WithTortoise, text, fuel)
      == if !c.settings.enabled then (NoAudio, c)
         else OpenAIAudio(c, text, if c.settings.voice in OpenAIVoices then None else Some("onyx"))
  {
    assert CallOriginal(c, text, fuel) == Call(c, Routing, text, fuel - 1);
  }

  /** The state the extension leaves once it is set up over voice-chat.js's routing, for the
      Tortoise voice with a failing server and fallback on. */
  ghost predicate FallbackLoop(c: Client, text: string)
  {
    && c.settings.enabled && c.settings.voice == TortoiseVoice
    && c.extended && c.config.fallbackToDefault && c.original == Some(Routing)
    && c.network == [] && TortoiseKey(c.config.voiceName, text) !in c.cache
  }

  /** The recursion through `originalTextToSpeech`: when the Tortoise server keeps failing,
      each fallback routes back into the extension's `generateTortoiseAudio`, which asks
      again. However many fallbacks are allowed, the call has not finished, and it has sent
      one more request than that. */
  lemma {:induction false} FallbackNeverFinishes(c: Client, text: string, fuel: nat)
    requires FallbackLoop(c, text)
    ensures var r := Call(c, Routing, text, fuel);
      r.0 == Unfinished && |r.1.sent| == |c.sent| + fuel + 1
    decreases fuel
  {
    var c1 := Fetch(c, TortoiseRequest(text, c.config.voiceName, c.config.preset)).1;
    assert c1 == c.(sent := c.sent + [TortoiseRequest(text, c.config.voiceName, c.config.preset)]);
    assert TortoiseAudio(c, text, fuel) == CallOriginal(c1, text, fuel);
    assert Call(c, Routing, text, fuel) == TortoiseAudio(c, text, fuel);
    if fuel > 0 {
      assert FallbackLoop(c1, text);
      FallbackNeverFinishes(c1, text, fuel - 1);
    }
  }

  /** Switching Tortoise off in its settings does not help: `textToSpeechWithTortoise`
      hands the Tortoise voice to the original routing, which enters the same loop. */
  lemma FallbackNeverFinishesInstalled(c: Client, text: string, fuel: nat)
    requires FallbackLoop(c, text)
    ensures Call(c, WithTortoise, text, fuel + 1).0 == Unfinished
  {
    if c.config.enabled {
      FallbackNeverFinishes(c, text, fuel + 1);
      assert Call(c, WithTortoise, text, fuel + 1) == Call(c, Routing, text, fuel + 1);
    } else {
      FallbackNeverFinishes(c, text, fuel);
    }
  }

  /** When setup runs twice, `originalTextToSpeech` is `textToSpeechWithTortoise` itself,
      so for any voice that is not the Tortoise voice it calls itself again synchronously,
      with no request and no change of state, before any `await`: in JavaScript the stack
      overflows and the promise rejects with a RangeError. The model has no stack, so
      however much fuel is allowed the call comes back `Unfinished` with the state as it was. */
  lemma {:induction false} SecondSetupLoops(c: Client, text: string, fuel: nat)
    requires c.original == Some(WithTortoise) && c.settings.voice != TortoiseVoice
    ensures Call(c, WithTortoise, text, fuel) == (Unfinished, c)
    decreases fuel
  {
    if fuel > 0 {
      SecondSetupLoops(c, text, fuel - 1);
    }
  }

  /** `textToSpeechWithTortoise` does not look at `settings.enabled`: with voice off and the
      Tortoise voice selected it still asks the server. Its one caller checks the flag before
      calling. */
  lemma ExtensionIgnoresVoiceOff(c: Client, text: string, fuel: nat)
    requires c.current == WithTortoise && !c.settings.enabled
    requires c.settings.voice == TortoiseVoice && c.config.enabled
    requires TortoiseKey(c.config.voiceName, text) !in c.cache
    ensures |Speak(c, text, fuel).1.sent| > |c.sent|
  {
  }

  /** The `voiceChat` object. */
  class VoiceChatState {
    /** Whether tortoise-tts.js was loaded after voice-chat.js. */
    const extended: bool
    var settings: VoiceSettings
    var tortoiseConfig: TortoiseConfig
    var audioCache: map<string, string>
    var sent: seq<AudioRequest>
    var network: seq<AudioReply>
    var current: Dispatch
    var original: Option<Dispatch>

    function Snapshot(): Client
      reads this
    {
      Client(settings, tortoiseConfig, audioCache, sent, network, extended, current, original)
    }

    /** The object as the scripts define it, before `init`. */
    constructor(extended: bool, network: seq<AudioReply>)
      ensures Snapshot() == Client(DefaultVoiceSettings, DefaultTortoiseConfig, map[], [],
                                   network, extended, Routing, None)
    {
      this.extended := extended;
      settings := DefaultVoiceSettings;
      tortoiseConfig := DefaultTortoiseConfig;
      audioCache := map[];
      sent := [];
      this.network := network;
      current := Routing;
      original := None;
    }

    /** `fetch` of one audio request. */
    method Request(req: AudioRequest) returns (reply: AudioReply)
      modifies this`sent, this`network
      ensures (reply, Snapshot()) == Fetch(old(Snapshot()), req)
    {
      sent := sent + [req];
      if network == [] {
        reply := AudioFailed;
      } else {
        reply := network[0];
        network := network[1..];
      }
    }

    method GenerateOpenAIAudio(text: string, voice: Option<string>) returns (r: Speech)
      modifies this`sent, this`network, this`audioCache
      ensures (r, Snapshot()) == OpenAIAudio(old(Snapshot()), text, voice)
    {
      var v := voice.GetOr(settings.voice);
      if v !in OpenAIVoices {
        return NoAudio;
      }
      var key := OpenAIKey(v, settings.speed, text);
      if key in audioCache {
        return Audio(audioCache[key]);
      }
      var reply := Request(TtsRequest(text, v, settings.speed));
      if reply.AudioOk? {
        audioCache := audioCache[key := reply.url];
        r := Audio(reply.url);
      } else {
        r := NoAudio;
      }
    }

    /** voice-chat.js's own `generateTortoiseAudio`. */
    method GenerateGogginsAudio(text: string) returns (r: Speech)
      modifies this`sent, this`network, this`audioCache
      ensures (r, Snapshot()) == GogginsAudio(old(Snapshot()), text)
    {
      var key := GogginsKey(text);
      if key in audioCache {
        return Audio(audioCache[key]);
      }
      var reply := Request(TortoiseRequest(text, "goggins", "fast"));
      if reply.AudioOk? {
        audioCache := audioCache[key := reply.url];
        r := Audio(reply.url);
      } else {
        r := GenerateOpenAIAudio(text, Some("onyx"));
      }
    }

    /** `voiceChat.textToSpeech(text)`, whichever implementation is installed. */
    method TextToSpeech(text: string, fuel: nat) returns (r: Speech)
      modifies this`sent, this`network, this`audioCache
      ensures (r, Snapshot()) == Speak(old(Snapshot()), text, fuel)
      decreases fuel, 4
    {
      r := CallDispatch(current, text, fuel);
    }

    /** Running the implementation `d` names: the routing, or `textToSpeechWithTortoise`. */
    method CallDispatch(d: Dispatch, text: string, fuel: nat) returns (r: Speech)
      modifies this`sent, this`network, this`audioCache
      ensures (r, Snapshot()) == Call(old(Snapshot()), d, text, fuel)
      decreases fuel, 3
    {
      match d
      case Routing =>
        r := RouteSpeech(text, fuel);
      case WithTortoise =>
        if settings.voice == TortoiseVoice && tortoiseConfig.enabled {
          r := GenerateTortoiseAudio(text, fuel);
        } else {
          r := CallOriginalTextToSpeech(text, fuel);
        }
    }

    /** voice-chat.js's `textToSpeech`. */
    method RouteSpeech(text: string, fuel: nat) returns (r: Speech)
      modifies this`sent, this`network, this`audioCache
      ensures (r, Snapshot()) == Route(old(Snapshot()), text, fuel)
      decreases fuel, 2
    {
      if !settings.enabled {
        r := NoAudio;
      } else if settings.voice == TortoiseVoice {
        if extended {
          r := GenerateTortoiseAudio(text, fuel);
        } else {
          r := GenerateGogginsAudio(text);
        }
      } else if settings.voice in OpenAIVoices {
        r := GenerateOpenAIAudio(text, None);
      } else {
        r := GenerateOpenAIAudio(text, Some("onyx"));
      }
    }

    /** The extension's `generateTortoiseAudio`. */
    method GenerateTortoiseAudio(text: string, fuel: nat) returns (r: Speech)
      modifies this`sent, this`network, this`audioCache
      ensures (r, Snapshot()) == TortoiseAudio(old(Snapshot()), text, fuel)
      decreases fuel, 1
    {
      var key := TortoiseKey(tortoiseConfig.voiceName, text);
      if key in audioCache {
        return Audio(audioCache[key]);
      }
      var reply := Request(TortoiseRequest(text, tortoiseConfig.voiceName, tortoiseConfig.preset));
      if reply.AudioOk? {
        audioCache := audioCache[key := reply.url];
        r := Audio(reply.url);
      } else if tortoiseConfig.fallbackToDefault {
        r := CallOriginalTextToSpeech(text, fuel);
      } else {
        r := NoAudio;
      }
    }

    /** `this.originalTextToSpeech(text)`: rejects while it is undefined. */
    method CallOriginalTextToSpeech(text: string, fuel: nat) returns (r: Speech)
      modifies this`sent, this`network, this`audioCache
      ensures (r, Snapshot()) == CallOriginal(old(Snapshot()), text, fuel)
      decreases fuel, 0
    {
      if original.None? {
        r := Rejected;
      } else if fuel == 0 {
        r := Unfinished;
      } else {
        r := CallDispatch(original.value, text, fuel - 1);
      }
    }

    /** `loadSettings`: saved keys override, the rest are kept; nothing saved or a parse
        error keeps the current settings. */
    method LoadSettings(saved: Saved<SavedVoiceSettings>)
      modifies this`settings
      ensures settings == LoadedSettings(old(settings), saved, Overlay)
    {
      if saved.Parsed? {
        settings := Overlay(settings, saved.value);
      }
    }

    /** The voice dropdown's change handler: the new voice is stored and the whole audio
        cache is dropped, so no URL made with another voice is played. */
    method ChangeVoice(voice: string)
      modifies this`settings, this`audioCache
      ensures settings == old(settings).(voice := voice)
      ensures audioCache == map[]
    {
      settings := settings.(voice := voice);
      audioCache := map[];
    }

    /** `initTortoiseTTS`: saved keys override the configuration, a parse error keeps it. */
    method InitTortoiseTTS(saved: Saved<SavedTortoiseConfig>)
      requires extended
      modifies this`tortoiseConfig
      ensures tortoiseConfig == LoadedSettings(old(tortoiseConfig), saved, OverlayConfig)
    {
      if saved.Parsed? {
        tortoiseConfig := OverlayConfig(tortoiseConfig, saved.value);
      }
    }

    /** `setupTortoiseTTS`: the installed `textToSpeech` becomes `originalTextToSpeech`,
        `textToSpeechWithTortoise` is installed, and the configuration is loaded. */
    method SetupTortoiseTTS(saved: Saved<SavedTortoiseConfig>)
      requires extended
      modifies this`current, this`original, this`tortoiseConfig
      ensures original == Some(old(current)) && current == WithTortoise
      ensures tortoiseConfig == LoadedSettings(old(tortoiseConfig), saved, OverlayConfig)
    {
      original := Some(current);
      current := WithTortoise;
      InitTortoiseTTS(saved);
    }

    /** `init` (as the extension replaces it): load the voice settings, then set up the
        extension when it is loaded. */
    method Init(savedVoice: Saved<SavedVoiceSettings>, savedTortoise: Saved<SavedTortoiseConfig>)
      modifies this`settings, this`current, this`original, this`tortoiseConfig
      ensures settings == LoadedSettings(old(settings), savedVoice, Overlay)
      ensures extended ==>
        && original == Some(old(current)) && current == WithTortoise
        && tortoiseConfig == LoadedSettings(old(tortoiseConfig), savedTortoise, OverlayConfig)
      ensures !extended ==>
        && current == old(current) && original == old(original)
        && tortoiseConfig == old(tortoiseConfig)
    {
      LoadSettings(savedVoice);
      if extended {
        SetupTortoiseTTS(savedTortoise);
      }
    }
  }

  /** After `init` on a fresh object the extension sits over the routing of voice-chat.js,
      and a second `init` makes it its own original. */
  lemma SetupTwiceSelfReferences(c0: Client, c1: Client)
    requires c0.current == Routing && c0.original == None
    requires c1 == c0.(current := WithTortoise, original := Some(c0.current))
    ensures c1.original == Some(Routing)
    ensures c1.(current := WithTortoise, original := Some(c1.current)).original == Some(WithTortoise)
  {
  }
}
