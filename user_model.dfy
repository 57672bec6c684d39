/** The user document of models/User.js: a session's settings, its conversations and
    their messages, the schema's defaults and enumerations, the validation a `save`
    performs, the pre-save `updatedAt` hook and `getConversationStats`.

    Mongo ObjectIds are natural numbers and dates are readings of a clock (`Time`). */
module UserModel {
  import opened Wrappers
  import opened Text

  type Id = nat
  type Time = int

  /** The optional audio-cache descriptor a message may carry. */
  datatype AudioCache = AudioCache(voiceType: string, fileUrl: string, cacheKey: string,
                                   duration: int, fileSize: int)

  datatype Message = Message(id: Id, kind: string, content: string, timestamp: Time,
                             audioCache: Option<AudioCache>)

  datatype Conversation = Conversation(id: Id, title: string, messages: seq<Message>,
                                       createdAt: Time, updatedAt: Time, isActive: bool)

  datatype Settings = Settings(name: string, intensity: string, voice: string, primaryColor: string,
                               showTimestamps: bool, darkMode: bool, voiceEnabled: bool,
                               speechInputEnabled: bool, voiceSpeed: real)

  datatype User = User(sessionId: string, settings: Settings, conversations: seq<Conversation>,
                       currentConversationId: Option<Id>, createdAt: Time, updatedAt: Time)

  /** The `enum` of a message's `type`. */
  const MessageTypes: seq<string> := ["user", "ai"]

  /** The `enum` of `settings.intensity`. */
  const Intensities: seq<string> := ["challenging", "reflective", "drill"]

  const DefaultTitle := "New Conversation"

  /** The schema defaults of `settings`. */
  const DefaultSettings := Settings("Goggins Bot", "challenging", "onyx", "#1a1a1a",
                                    false, true, true, false, 1.1)

  lemma DefaultSettingsValid()
    ensures SettingsValid(DefaultSettings)
    ensures DefaultSettings.intensity == "challenging" && DefaultSettings.voice == "onyx"
    ensures DefaultSettings.darkMode && DefaultSettings.voiceEnabled
    ensures !DefaultSettings.showTimestamps && !DefaultSettings.speechInputEnabled
  {
  }

  /** A conversation built from the schema defaults: an omitted title is "New Conversation",
      `isActive` is true and both dates are the creation time. */
  function NewConversation(id: Id, title: Option<string>, now: Time): (c: Conversation)
    ensures c.id == id && c.messages == [] && c.isActive
    ensures c.createdAt == now && c.updatedAt == now
    ensures title.None? ==> c.title == DefaultTitle
    ensures title.Some? ==> c.title == title.value
  {
    Conversation(id, title.GetOr(DefaultTitle), [], now, now, true)
  }

  // ---------------------------------------------------------------------------------------
  // Validation performed by every `save`

  /** `type` is in the enumeration and `content`, being required, is not empty. */
  predicate MessageValid(m: Message)
  {
    m.kind in MessageTypes && m.content != ""
  }

  predicate ConversationValid(c: Conversation)
  {
    forall j | 0 <= j < |c.messages| :: MessageValid(c.messages[j])
  }

  predicate SettingsValid(s: Settings)
  {
    s.intensity in Intensities
  }

  /** What Mongoose checks before writing the document: the required session id, the
      intensity enumeration, and every message's type and content. */
  predicate SchemaValid(u: User)
  {
    && u.sessionId != ""
    && SettingsValid(u.settings)
    && forall i | 0 <= i < |u.conversations| :: ConversationValid(u.conversations[i])
  }

  /** `user.save()`: fails validation without writing, or runs the pre-save hook, which sets
      `updatedAt` to the current time, and writes the document. */
  function Save(u: User, now: Time): (r: Result<User, string>)
    ensures r.Ok? <==> SchemaValid(u)
    ensures r.Ok? ==> r.value.updatedAt == now && r.value.(updatedAt := u.updatedAt) == u
  {
    if SchemaValid(u) then Ok(u.(updatedAt := now)) else Err("ValidationError")
  }

  /** A saved document never holds an intensity outside the enumeration. */
  lemma SavedIntensityInEnum(u: User, now: Time)
    requires Save(u, now).Ok?
    ensures Save(u, now).value.settings.intensity in Intensities
  {
  }

  // ---------------------------------------------------------------------------------------
  // Lookup by id (`conversations.id(x)` and `findIndex`)

  /** Index of the first conversation with the given id. */
  function FindConversation(cs: seq<Conversation>, id: Id): (r: Option<nat>)
    ensures r.Some? ==> r.value < |cs| && cs[r.value].id == id
    ensures r.Some? ==> forall k | 0 <= k < r.value :: cs[k].id != id
    ensures r.None? <==> forall k | 0 <= k < |cs| :: cs[k].id != id
  {
    if cs == [] then None
    else if cs[0].id == id then Some(0)
    else match FindConversation(cs[1..], id)
      case None => None
      case Some(k) => Some(k + 1)
  }

  predicate HasConversation(cs: seq<Conversation>, id: Id)
  {
    FindConversation(cs, id).Some?
  }

  /** The current id is null or names a conversation of the user. */
  predicate CurrentResolves(u: User)
  {
    u.currentConversationId.Some? ==> HasConversation(u.conversations, u.currentConversationId.value)
  }

  predicate DistinctIds(cs: seq<Conversation>)
  {
    forall i, j | 0 <= i < j < |cs| :: cs[i].id != cs[j].id
  }

  /** Every id in the conversation is below `n` (ids are handed out from a counter). */
  predicate ConversationIdsBelow(c: Conversation, n: nat)
  {
    c.id < n && forall j | 0 <= j < |c.messages| :: c.messages[j].id < n
  }

  predicate IdsBelow(u: User, n: nat)
  {
    forall i | 0 <= i < |u.conversations| :: ConversationIdsBelow(u.conversations[i], n)
  }

  /** The invariant every stored user document keeps. */
  predicate UserOk(u: User)
  {
    SchemaValid(u) && CurrentResolves(u) && DistinctIds(u.conversations)
  }

  // ---------------------------------------------------------------------------------------
  // getConversationStats

  datatype ConversationStats = ConversationStats(totalConversations: nat, totalMessages: nat,
                                                 activeConversations: nat)

  /** `conversations.reduce((total, conv) => total + conv.messages.length, 0)` */
  function TotalMessages(cs: seq<Conversation>): nat
  {
    if cs == [] then 0 else TotalMessages(cs[..|cs| - 1]) + |cs[|cs| - 1].messages|
  }

  /** `conversations.filter(conv => conv.isActive).length` */
  function CountActive(cs: seq<Conversation>): (n: nat)
    ensures n <= |cs|
    ensures n == |cs| <==> forall i | 0 <= i < |cs| :: cs[i].isActive
  {
    if cs == [] then 0
    else (if cs[|cs| - 1].isActive then 1 else 0) + CountActive(cs[..|cs| - 1])
  }

  function GetConversationStats(u: User): (s: ConversationStats)
    ensures s.totalConversations == |u.conversations|
    ensures s.activeConversations <= s.totalConversations
  {
    ConversationStats(|u.conversations|, TotalMessages(u.conversations), CountActive(u.conversations))
  }

  /** Replacing one conversation changes the message total by the difference in its
      message count. */
  lemma {:induction false} TotalMessagesUpdate(cs: seq<Conversation>, k: nat, c: Conversation)
    requires k < |cs|
    ensures TotalMessages(cs[k := c]) + |cs[k].messages| == TotalMessages(cs) + |c.messages|
    decreases |cs|
  {
    var n := |cs| - 1;
    if k < n {
      assert cs[k := c][..n] == cs[..n][k := c];
      TotalMessagesUpdate(cs[..n], k, c);
    } else {
      assert cs[k := c][..n] == cs[..n];
    }
  }

  lemma TotalMessagesAppend(cs: seq<Conversation>, c: Conversation)
    ensures TotalMessages(cs + [c]) == TotalMessages(cs) + |c.messages|
  {
    assert (cs + [c])[..|cs|] == cs;
  }

  /** Removing one conversation removes exactly its messages from the total. */
  lemma {:induction false} TotalMessagesRemove(cs: seq<Conversation>, k: nat)
    requires k < |cs|
    ensures TotalMessages(cs[..k] + cs[k + 1..]) + |cs[k].messages| == TotalMessages(cs)
    decreases |cs|
  {
    var n := |cs| - 1;
    if k == n {
      assert cs[..k] + cs[k + 1..] == cs[..n];
    } else {
      var init := cs[..n];
      var rest := init[..k] + init[k + 1..];
      TotalMessagesRemove(init, k);
      assert init[k] == cs[k];
      assert cs[..k] + cs[k + 1..] == rest + [cs[n]];
      TotalMessagesAppend(rest, cs[n]);
      assert cs == init + [cs[n]];
      TotalMessagesAppend(init, cs[n]);
    }
  }
}
