/** The chat rules of server.js: the intensity-to-prompt mapping, the reply wrapper that
    never throws, the session-id middleware, and the validation and persistence order of
    `/api/chat`, `/api/search` and `/api/tts`. The OpenAI call is an opaque outcome. */
module ChatServer {
  import opened Wrappers
  import opened Text
  import opened UserModel
  import opened DatabaseService

  const BasePrompt: string := "You are David Goggins, a former Navy SEAL, ultramarathon runner, and motivational speaker known for mental toughness and pushing beyond limits. Respond as David Goggins would, using his direct, no-excuses style and occasional profanity."
  const ChallengingSuffix: string := " Be challenging but supportive, focusing on pushing people beyond their perceived limits. Use phrases like 'stay hard', 'embrace the suck', and 'callus your mind'. Remind people that discomfort is where growth happens."
  const ReflectiveSuffix: string := " Be reflective and share personal stories and lessons from your journey. Talk about your transformation from overweight to ultramarathoner, or your SEAL training experiences. Connect these to the person's challenges."
  const DrillSuffix: string := " Act like a drill instructor - be loud (USE CAPS), intense, and in-your-face. Challenge excuses immediately. Be extremely direct and forceful. Call out weakness and demand action. Use short, powerful sentences."
  const DefaultSuffix: string := " Focus on mental toughness, accountability, and pushing beyond comfort zones."

  /** The reply every failure of the chat completion turns into. */
  const FallbackReply: string := "I can't provide a response right now. Please make sure you've set up your OpenAI API key correctly."

  // ---------------------------------------------------------------------------------------
  // createSystemPrompt

  function PromptSuffix(intensity: string): string
  {
    match intensity
    case "challenging" => ChallengingSuffix
    case "reflective" => ReflectiveSuffix
    case "drill" => DrillSuffix
    case _ => DefaultSuffix
  }

  function CreateSystemPrompt(intensity: string): string
  {
    BasePrompt + PromptSuffix(intensity)
  }

  /** Every prompt starts with the base prompt, and every value but the three intensities
      gets the generic one. */
  lemma SystemPromptShape(a: string)
    ensures IsPrefix(BasePrompt, CreateSystemPrompt(a))
    ensures a !in Intensities ==> CreateSystemPrompt(a) == BasePrompt + DefaultSuffix
  {
    assert CreateSystemPrompt(a)[..|BasePrompt|] == BasePrompt;
  }

  /** The three intensities get three different prompts, none of them the generic one:
      the four suffixes already differ in length. */
  lemma SystemPromptsDistinct(a: string, b: string)
    ensures a in Intensities ==> CreateSystemPrompt(a) != BasePrompt + DefaultSuffix
    ensures a in Intensities && b in Intensities && CreateSystemPrompt(a) == CreateSystemPrompt(b) ==> a == b
  {
    SuffixLengths();
    var la, lb := |PromptSuffix(a)|, |PromptSuffix(b)|;
    assert a in Intensities ==> la != 77;
    assert a in Intensities && b in Intensities && la == lb ==> a == b;
  }

  lemma SuffixLengths()
    ensures |ChallengingSuffix| == 218 && |ReflectiveSuffix| == 216
    ensures |DrillSuffix| == 210 && |DefaultSuffix| == 77
  {
  }

  // ---------------------------------------------------------------------------------------
  // getOpenAIResponse

  /** What the chat-completion request produced: the first choice's content, or any
      failure (network error, error status, malformed body). */
  datatype CompletionOutcome = Completed(content: string) | CompletionFailed

  /** `getOpenAIResponse`: never throws; without a server key or on any failure it gives
      the fixed fallback, otherwise the trimmed content. */
  function GetOpenAIResponse(apiKey: string, outcome: CompletionOutcome): (r: string)
    ensures apiKey == "" || outcome.CompletionFailed? ==> r == FallbackReply
    ensures apiKey != "" && outcome.Completed? ==> r == Trim(outcome.content)
  {
    if apiKey == "" then FallbackReply
    else match outcome
      case CompletionFailed => FallbackReply
      case Completed(content) => Trim(content)
  }

  // ---------------------------------------------------------------------------------------
  // Session-id middleware

  /** `'user_' + Date.now() + '_' + random`; the clock and the random suffix are inputs. */
  function GeneratedSessionId(now: nat, random: string): (id: string)
    ensures IsPrefix("user_", id) && id != ""
  {
    "user_" + NatToString(now) + "_" + random
  }

  /** The part of `req.session` the middleware writes; "" is an unset id. */
  class Session {
    var userId: string

    constructor (userId: string)
      ensures this.userId == userId
    {
      this.userId := userId;
    }

    /** Assigns a generated id only when none is present: an existing id is never replaced. */
    method EnsureUserId(now: nat, random: string)
      modifies this
      ensures old(userId) != "" ==> userId == old(userId)
      ensures old(userId) == "" ==> userId == GeneratedSessionId(now, random)
      ensures userId != ""
    {
      if userId == "" {
        userId := GeneratedSessionId(now, random);
      }
    }
  }

  // ---------------------------------------------------------------------------------------
  // /api/chat

  datatype ChatResponse = ChatOk(response: string, sessionId: string) | ChatError(status: int, error: string)

  /** The steps of a chat turn, in the order the handler runs them. `RequestReply` records
      the intensity whose system prompt, `CreateSystemPrompt(intensity)`, the completion
      request carries. */
  datatype ChatStep = PersistUserMessage | ReadSettings | RequestReply(intensity: string) | PersistAiMessage

  /** `!message || message.trim() === ''` */
  predicate BlankMessage(message: Option<string>)
  {
    message.None? || Trim(message.value) == ""
  }

  /** The document after the user message of a chat turn is stored. */
  function AfterUserMessage(u: User, message: string, nid: Id, now: Time): User
  {
    AddMessageOutcome(u, "user", message, None, nid, now).1
  }

  /** The effect of a chat turn on the user document: the user message is stored as sent
      (untrimmed) and then the reply. The reply is stored exactly when it is not empty
      (a completion of only whitespace trims to "" and fails validation), and then the
      current history gains exactly the user message followed by the reply. */
  lemma ChatTurnStoresPair(u: User, message: string, reply: string, nid: Id, now: Time)
    requires UserOk(u) && IdsBelow(u, nid) && Trim(message) != ""
    ensures var o1 := AddMessageOutcome(u, "user", message, None, nid, now);
      var o2 := AddMessageOutcome(o1.1, "ai", reply, None, nid + 2, now);
      && o1.0 == Ok(Message(nid + 1, "user", message, now, None))
      && (o2.0.Ok? <==> reply != "")
      && UserOk(o2.1) && IdsBelow(o2.1, nid + 4)
      && (reply != "" ==>
            GetHistory(o2.1, None) == GetHistory(u, None) + [Message(nid + 1, "user", message, now, None),
                                                             Message(nid + 3, "ai", reply, now, None)])
  {
    var o1 := UserMessageStored(u, message, nid, now);
    assert MessageValid(Message(nid + 3, "ai", reply, now, None)) <==> reply != "";
    AddMessageOutcomeKeepsInvariant(o1.1, "ai", reply, None, nid + 2, now);
    if reply != "" {
      AddMessageAppendsToHistory(o1.1, "ai", reply, None, nid + 2, now);
      AppendTwo(GetHistory(u, None), Message(nid + 1, "user", message, now, None),
                Message(nid + 3, "ai", reply, now, None));
    }
  }

  lemma AppendTwo<T>(h: seq<T>, x: T, y: T)
    ensures (h + [x]) + [y] == h + [x, y]
  {
  }

  /** A message that is not blank is stored as sent. */
  lemma UserMessageStored(u: User, message: string, nid: Id, now: Time)
    returns (o1: (Result<Message, string>, User))
    requires UserOk(u) && IdsBelow(u, nid) && Trim(message) != ""
    ensures o1 == AddMessageOutcome(u, "user", message, None, nid, now)
    ensures o1.0 == Ok(Message(nid + 1, "user", message, now, None))
    ensures UserOk(o1.1) && IdsBelow(o1.1, nid + 2)
    ensures GetHistory(o1.1, None) == GetHistory(u, None) + [Message(nid + 1, "user", message, now, None)]
  {
    assert message != "";
    o1 := AddMessageOutcome(u, "user", message, None, nid, now);
    assert MessageValid(Message(nid + 1, "user", message, now, None));
    AddMessageOutcomeKeepsInvariant(u, "user", message, None, nid, now);
    AddMessageAppendsToHistory(u, "user", message, None, nid, now);
  }

  /** The second half of a chat turn on the stored document `u`: the reply is asked for
      and stored as an `ai` message; the response carries it, or is a 500 when the save
      rejects it. The document is the one left stored. */
  function AnswerOutcome(u: User, sid: string, apiKey: string, outcome: CompletionOutcome,
                         nid: Id, now: Time): (ChatResponse, User)
  {
    var reply := GetOpenAIResponse(apiKey, outcome);
    var o := AddMessageOutcome(u, "ai", reply, None, nid, now);
    (if o.0.Ok? then ChatOk(reply, sid) else ChatError(500, "Failed to process chat message"), o.1)
  }

  /** The second half of a chat turn for a stored document: read the settings, ask for the
      reply with the prompt of the stored intensity, and store the reply; a failed save of
      the reply answers 500. */
  method AnswerTurn(store: UserStore, sid: string, apiKey: string, outcome: CompletionOutcome,
                    now: Time)
    returns (resp: ChatResponse, intensity: string)
    requires store.Valid() && sid in store.users
    modifies store
    ensures store.Valid()
    ensures var a := AnswerOutcome(old(store.users)[sid], sid, apiKey, outcome, old(store.nextId), now);
      && intensity == old(store.users)[sid].settings.intensity
      && resp == a.0
      && store.users == old(store.users)[sid := a.1]
      && store.nextId == old(store.nextId) + 2
  {
    var settings := store.GetSettings(sid, now);
    assert store.users == old(store.users) && store.nextId == old(store.nextId);
    intensity := settings.intensity;
    var reply := GetOpenAIResponse(apiKey, outcome);
    var stored := store.AddMessage(sid, "ai", reply, None, now);
    if stored.Ok? {
      resp := ChatOk(reply, sid);
    } else {
      resp := ChatError(500, "Failed to process chat message");
    }
  }

  /** A chat turn for a message that is not blank: store the user message as sent, then
      answer the turn with the settings of the document just saved. */
  method RunChatTurn(store: UserStore, sid: string, text: string, apiKey: string,
                     outcome: CompletionOutcome, now: Time)
    returns (resp: ChatResponse, trace: seq<ChatStep>)
    requires store.Valid() && sid != ""
    modifies store
    ensures store.Valid()
    ensures var f := NextAfterResolve(old(store.users), old(store.nextId), sid);
      var u1 := AfterUserMessage(Resolve(old(store.users), old(store.nextId), sid, now), text, f, now);
      var a := AnswerOutcome(u1, sid, apiKey, outcome, f + 2, now);
      && resp == a.0
      && trace == [PersistUserMessage, ReadSettings, RequestReply(u1.settings.intensity),
                   PersistAiMessage]
      && store.users == old(store.users)[sid := a.1]
      && store.nextId == f + 4
  {
    ghost var u1 := StoreUserMessage(store, sid, text, now);
    ghost var a := AnswerOutcome(u1, sid, apiKey, outcome, store.nextId, now);
    OverwriteTwice(old(store.users), sid, u1, a.1);
    var intensity;
    resp, intensity := AnswerTurn(store, sid, apiKey, outcome, now);
    trace := [PersistUserMessage, ReadSettings, RequestReply(intensity), PersistAiMessage];
  }

  /** The first half of a chat turn: the user message is stored as sent. */
  method StoreUserMessage(store: UserStore, sid: string, text: string, now: Time) returns (ghost u1: User)
    requires store.Valid() && sid != ""
    modifies store
    ensures store.Valid() && sid in store.users && store.users[sid] == u1
    ensures var f := NextAfterResolve(old(store.users), old(store.nextId), sid);
      && u1 == AfterUserMessage(Resolve(old(store.users), old(store.nextId), sid, now), text, f, now)
      && store.users == old(store.users)[sid := u1]
      && store.nextId == f + 2
  {
    ghost var f := NextAfterResolve(store.users, store.nextId, sid);
    u1 := AfterUserMessage(Resolve(store.users, store.nextId, sid, now), text, f, now);
    var saved := store.AddMessage(sid, "user", text, None, now);
  }

  /** `POST /api/chat`. A blank message is answered 400 before anything is stored.
      Any other message runs a chat turn. */
  method PostChat(store: UserStore, sid: string, message: Option<string>, apiKey: string,
                  outcome: CompletionOutcome, now: Time)
    returns (resp: ChatResponse, trace: seq<ChatStep>)
    requires store.Valid() && sid != ""
    modifies store
    ensures store.Valid()
    ensures BlankMessage(message) ==>
      && resp == ChatError(400, "Message is required") && trace == []
      && store.users == old(store.users) && store.nextId == old(store.nextId)
    ensures !BlankMessage(message) ==>
      var f := NextAfterResolve(old(store.users), old(store.nextId), sid);
      var u1 := AfterUserMessage(Resolve(old(store.users), old(store.nextId), sid, now), message.value, f, now);
      var a := AnswerOutcome(u1, sid, apiKey, outcome, f + 2, now);
      && resp == a.0
      && trace == [PersistUserMessage, ReadSettings, RequestReply(u1.settings.intensity),
                   PersistAiMessage]
      && store.users == old(store.users)[sid := a.1]
      && store.nextId == f + 4
  {
    if BlankMessage(message) {
      resp, trace := ChatError(400, "Message is required"), [];
    } else {
      resp, trace := RunChatTurn(store, sid, message.value, apiKey, outcome, now);
    }
  }

  // ---------------------------------------------------------------------------------------
  // /api/search

  /** The `limit` query parameter: absent (default 10), a number, or text `parseInt`
      turns into NaN. */
  datatype LimitParam = LimitAbsent | LimitNumber(n: int) | LimitNaN

  function SearchLimit(p: LimitParam): (r: Option<int>)
    ensures p.LimitAbsent? ==> r == Some(10)
    ensures p.LimitNumber? ==> r == Some(p.n)
    ensures p.LimitNaN? ==> r.None?
  {
    match p
    case LimitAbsent => Some(10)
    case LimitNumber(n) => Some(n)
    case LimitNaN => None
  }

  datatype SearchResponse = SearchOk(results: seq<SearchGroup>) | SearchError(status: int, error: string)

  /** `GET /api/search`: a missing or blank term is answered 400 before the store is touched. */
  method GetSearch(store: UserStore, sid: string, q: Option<string>, limit: LimitParam, now: Time)
    returns (resp: SearchResponse)
    requires store.Valid() && sid != ""
    modifies store
    ensures store.Valid()
    ensures BlankMessage(q) ==>
      resp == SearchError(400, "Search term is required")
      && store.users == old(store.users) && store.nextId == old(store.nextId)
    ensures !BlankMessage(q) ==>
      var u0 := Resolve(old(store.users), old(store.nextId), sid, now);
      && resp == SearchOk(SliceTo(SearchAll(u0.conversations, q.value), SearchLimit(limit)))
      && store.users == old(store.users)[sid := u0]
      && store.nextId == NextAfterResolve(old(store.users), old(store.nextId), sid)
  {
    if BlankMessage(q) {
      return SearchError(400, "Search term is required");
    }
    var results := store.SearchConversations(sid, q.value, SearchLimit(limit), now);
    resp := SearchOk(results);
  }

  /** The default limit keeps at most ten groups, and an unparsable limit keeps none. */
  lemma SearchLimitBounds(groups: seq<SearchGroup>)
    ensures |SliceTo(groups, SearchLimit(LimitAbsent))| <= 10
    ensures SliceTo(groups, SearchLimit(LimitNaN)) == []
  {
  }

  // ---------------------------------------------------------------------------------------
  // /api/tts

  /** The voices the OpenAI speech endpoint accepts. */
  const OpenAIVoices: seq<string> := ["alloy", "echo", "fable", "onyx", "nova", "shimmer"]

  datatype TtsDecision = TtsReject(status: int, error: string)
                       | Synthesize(text: string, voice: string, speed: real)

  /** The checks of `POST /api/tts`, in order: the server key, the text, the voice; a
      missing or zero speed becomes 1.0. */
  function DecideTts(serverKey: string, text: Option<string>, voice: Option<string>,
                     speed: Option<real>): (d: TtsDecision)
    ensures serverKey == "" ==> d == TtsReject(400, "API key not configured on server")
    ensures serverKey != "" && (text.None? || text.value == "") ==> d == TtsReject(400, "Text is required")
    ensures d.Synthesize? <==>
      serverKey != "" && text.Some? && text.value != "" && voice.Some? && voice.value in OpenAIVoices
    ensures d.TtsReject? ==> d.status == 400
    ensures d.Synthesize? ==> d.text == text.value && d.voice == voice.value
    ensures d.Synthesize? ==> d.speed == if speed.Some? && speed.value != 0.0 then speed.value else 1.0
  {
    if serverKey == "" then TtsReject(400, "API key not configured on server")
    else if text.None? || text.value == "" then TtsReject(400, "Text is required")
    else if voice.None? || voice.value !in OpenAIVoices then TtsReject(400, "Invalid voice parameter")
    else Synthesize(text.value, voice.value, if speed.Some? && speed.value != 0.0 then speed.value else 1.0)
  }
}
