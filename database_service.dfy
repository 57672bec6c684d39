/** services/DatabaseService.js: the per-session conversation store.

    Each service call first runs `getOrCreateUser`, then changes the user document and
    saves it. The document changes are pure functions on `User` here, each with lemmas
    showing the stored-document invariant `UserOk` is kept. The Mongo collection itself is
    the class `UserStore`: a map from session id to document plus the counter that hands
    out fresh ObjectIds. */
module DatabaseService {
  import opened Wrappers
  import opened Text
  import opened UserModel

  const WelcomeTitle: string := "Welcome to Goggins Bot"
  const WelcomeText: string := "WHO'S GONNA CARRY THE BOATS?! Welcome to your motivation station. I'm here to push you beyond your limits and help you become the person you're meant to be. Stay hard!"
  const ConversationNotFound: string := "Conversation not found"
  const MessageNotFound: string := "Message not found"

  // ---------------------------------------------------------------------------------------
  // getOrCreateUser

  /** The document created for a first-seen session: one welcome conversation holding one
      `ai` message, made current. `convId` and `msgId` are the generated ObjectIds. */
  function NewUser(sid: string, convId: Id, msgId: Id, now: Time): (u: User)
    ensures u.sessionId == sid && u.settings == DefaultSettings
    ensures |u.conversations| == 1 && u.conversations[0].title == WelcomeTitle
    ensures u.conversations[0].messages == [Message(msgId, "ai", WelcomeText, now, None)]
    ensures u.currentConversationId == Some(u.conversations[0].id)
    ensures sid != "" ==> UserOk(u)
  {
    var welcome := Message(msgId, "ai", WelcomeText, now, None);
    var c := NewConversation(convId, Some(WelcomeTitle), now).(messages := [welcome]);
    User(sid, DefaultSettings, [c], Some(convId), now, now)
  }

  // ---------------------------------------------------------------------------------------
  // addMessage

  /** Position of the conversation the current id resolves to, if it resolves. */
  function CurrentIndex(u: User): (r: Option<nat>)
    ensures r.Some? ==> r.value < |u.conversations|
    ensures r.Some? ==> u.currentConversationId == Some(u.conversations[r.value].id)
    ensures r.None? <==> !(u.currentConversationId.Some?
                           && HasConversation(u.conversations, u.currentConversationId.value))
  {
    match u.currentConversationId
    case None => None
    case Some(id) => FindConversation(u.conversations, id)
  }

  /** "Conversation N+1" for a user holding `n` conversations. */
  function NumberedTitle(n: nat): string
  {
    "Conversation " + NatToString(n + 1)
  }

  /** The document after `addMessage` and the message it returns. The message goes to the
      conversation the current id resolves to; when the current id is null or dangling, a
      conversation "Conversation N+1" is appended first and made current. The new
      conversation takes id `nid`, the message `nid + 1`. */
  function AppendMessage(u: User, kind: string, content: string, audio: Option<AudioCache>,
                         nid: Id, now: Time): (r: (User, Message))
    ensures r.1 == Message(nid + 1, kind, content, now, audio)
    ensures r.0.sessionId == u.sessionId && r.0.settings == u.settings
    ensures CurrentIndex(u).Some? ==>
      var k := CurrentIndex(u).value;
      && |r.0.conversations| == |u.conversations|
      && r.0.currentConversationId == u.currentConversationId
      && r.0.conversations[k].messages == u.conversations[k].messages + [r.1]
      && r.0.conversations[k] == u.conversations[k].(messages := r.0.conversations[k].messages, updatedAt := now)
      && forall j | 0 <= j < |u.conversations| && j != k :: r.0.conversations[j] == u.conversations[j]
    ensures CurrentIndex(u).None? ==>
      && r.0.conversations == u.conversations + [Conversation(nid, NumberedTitle(|u.conversations|), [r.1], now, now, true)]
      && r.0.currentConversationId == Some(nid)
  {
    var m := Message(nid + 1, kind, content, now, audio);
    match CurrentIndex(u)
    case Some(k) =>
      var c := u.conversations[k];
      (u.(conversations := u.conversations[k := c.(messages := c.messages + [m], updatedAt := now)]), m)
    case None =>
      var c := NewConversation(nid, Some(NumberedTitle(|u.conversations|)), now);
      (u.(conversations := u.conversations + [c.(messages := [m])], currentConversationId := Some(nid)), m)
  }

  lemma HasConversationAt(cs: seq<Conversation>, k: nat)
    requires k < |cs|
    ensures HasConversation(cs, cs[k].id)
  {
  }

  /** Replacing one conversation by one with the same id, valid messages and ids below
      the counter keeps the invariant. */
  lemma ReplaceConversationKeepsInvariant(u: User, k: nat, c: Conversation, n: nat)
    requires UserOk(u) && IdsBelow(u, n) && k < |u.conversations|
    requires c.id == u.conversations[k].id && ConversationValid(c) && ConversationIdsBelow(c, n)
    ensures UserOk(u.(conversations := u.conversations[k := c]))
    ensures IdsBelow(u.(conversations := u.conversations[k := c]), n)
  {
    var cs1 := u.conversations[k := c];
    assert forall j | 0 <= j < |cs1| :: cs1[j].id == u.conversations[j].id;
    var p := u.currentConversationId;
    if p.Some? {
      var i := FindConversation(u.conversations, p.value).value;
      HasConversationAt(cs1, i);
    }
  }

  /** Replacing one message by one with a valid type and content and an id below the
      counter keeps the conversation valid. */
  lemma ReplaceMessageKeepsValid(c: Conversation, j: nat, m: Message, t: Time, n: nat)
    requires ConversationValid(c) && ConversationIdsBelow(c, n) && j < |c.messages|
    requires MessageValid(m) && m.id < n
    ensures ConversationValid(c.(messages := c.messages[j := m], updatedAt := t))
    ensures ConversationIdsBelow(c.(messages := c.messages[j := m], updatedAt := t), n)
  {
  }

  /** Appending a message keeps the stored-document invariant, except that the save
      rejects an invalid message; afterwards the current id resolves, and the total number
      of messages has grown by exactly one. */
  lemma AppendMessageKeepsInvariant(u: User, kind: string, content: string,
                                    audio: Option<AudioCache>, nid: Id, now: Time)
    requires UserOk(u) && IdsBelow(u, nid)
    ensures var (u1, m) := AppendMessage(u, kind, content, audio, nid, now);
      && (SchemaValid(u1) <==> MessageValid(m))
      && CurrentResolves(u1) && DistinctIds(u1.conversations) && IdsBelow(u1, nid + 2)
      && CurrentIndex(u1).Some?
      && TotalMessages(u1.conversations) == TotalMessages(u.conversations) + 1
  {
    match CurrentIndex(u)
    case Some(k) => AppendToCurrentKeepsInvariant(u, kind, content, audio, nid, now, k);
    case None => AppendToNewKeepsInvariant(u, kind, content, audio, nid, now);
  }

  lemma AppendToCurrentKeepsInvariant(u: User, kind: string, content: string,
                                      audio: Option<AudioCache>, nid: Id, now: Time, k: nat)
    requires UserOk(u) && IdsBelow(u, nid) && CurrentIndex(u) == Some(k)
    ensures var (u1, m) := AppendMessage(u, kind, content, audio, nid, now);
      && (SchemaValid(u1) <==> MessageValid(m))
      && CurrentResolves(u1) && DistinctIds(u1.conversations) && IdsBelow(u1, nid + 2)
      && CurrentIndex(u1).Some?
      && TotalMessages(u1.conversations) == TotalMessages(u.conversations) + 1
  {
    var (u1, m) := AppendMessage(u, kind, content, audio, nid, now);
    var cs, cs1 := u.conversations, u1.conversations;
    TotalMessagesUpdate(cs, k, cs1[k]);
    assert cs1 == cs[k := cs1[k]];
    assert cs1[k].id == cs[k].id;
    HasConversationAt(cs1, k);
    if MessageValid(m) {
      assert ConversationValid(cs1[k]) by {
        forall j | 0 <= j < |cs1[k].messages| ensures MessageValid(cs1[k].messages[j]) {
          if j < |cs[k].messages| {
            assert ConversationValid(cs[k]);
            assert cs1[k].messages[j] == cs[k].messages[j];
          }
        }
      }
    } else {
      assert cs1[k].messages[|cs[k].messages|] == m;
      assert !ConversationValid(cs1[k]);
    }
  }

  lemma AppendToNewKeepsInvariant(u: User, kind: string, content: string,
                                  audio: Option<AudioCache>, nid: Id, now: Time)
    requires UserOk(u) && IdsBelow(u, nid) && CurrentIndex(u).None?
    ensures var (u1, m) := AppendMessage(u, kind, content, audio, nid, now);
      && (SchemaValid(u1) <==> MessageValid(m))
      && CurrentResolves(u1) && DistinctIds(u1.conversations) && IdsBelow(u1, nid + 2)
      && CurrentIndex(u1).Some?
      && TotalMessages(u1.conversations) == TotalMessages(u.conversations) + 1
  {
    var (u1, m) := AppendMessage(u, kind, content, audio, nid, now);
    var c := u1.conversations[|u.conversations|];
    assert c.messages == [m] && c.messages[0] == m;
    assert ConversationIdsBelow(c, nid + 2);
    assert ConversationValid(c) <==> MessageValid(m);
    AppendFreshKeepsInvariant(u, c, nid + 2);
    assert u1 == u.(conversations := u.conversations + [c], currentConversationId := Some(c.id));
  }

  /** Appending a conversation with an id above all stored ids and making it current keeps
      the invariant exactly when the new conversation passes validation. */
  lemma AppendFreshKeepsInvariant(u: User, c: Conversation, bound: nat)
    requires UserOk(u) && IdsBelow(u, c.id) && ConversationIdsBelow(c, bound)
    ensures var u1 := u.(conversations := u.conversations + [c], currentConversationId := Some(c.id));
      && (SchemaValid(u1) <==> ConversationValid(c))
      && CurrentResolves(u1) && DistinctIds(u1.conversations) && IdsBelow(u1, bound)
      && FindConversation(u1.conversations, c.id) == Some(|u.conversations|)
      && TotalMessages(u1.conversations) == TotalMessages(u.conversations) + |c.messages|
  {
    var cs, n := u.conversations, |u.conversations|;
    var cs1 := cs + [c];
    TotalMessagesAppend(cs, c);
    assert forall i | 0 <= i < n :: cs1[i] == cs[i];
    assert forall i | 0 <= i < n :: cs[i].id < c.id by {
      forall i | 0 <= i < n ensures cs[i].id < c.id {
        assert ConversationIdsBelow(cs[i], c.id);
      }
    }
    assert DistinctIds(cs1);
    assert FindConversation(cs1, c.id) == Some(n);
    IdsBelowGrow(u, c.id, bound);
    assert forall i | 0 <= i < n :: ConversationIdsBelow(cs1[i], bound) by {
      forall i | 0 <= i < n ensures ConversationIdsBelow(cs1[i], bound) {
        assert ConversationIdsBelow(cs[i], bound);
      }
    }
    assert cs1[n] == c;
  }

  // ---------------------------------------------------------------------------------------
  // createConversation

  /** `title || "Conversation N+1"`: an absent or empty title is replaced. */
  function ChosenTitle(title: Option<string>, n: nat): string
  {
    if title.Some? && title.value != "" then title.value else NumberedTitle(n)
  }

  /** The document after `createConversation`: one empty conversation appended, made current. */
  function AppendConversation(u: User, title: Option<string>, nid: Id, now: Time): (u1: User)
    ensures |u1.conversations| == |u.conversations| + 1
    ensures u1.conversations[..|u.conversations|] == u.conversations
    ensures u1.conversations[|u.conversations|]
         == NewConversation(nid, Some(ChosenTitle(title, |u.conversations|)), now)
    ensures u1.currentConversationId == Some(nid)
    ensures u1.sessionId == u.sessionId && u1.settings == u.settings
  {
    var c := NewConversation(nid, Some(ChosenTitle(title, |u.conversations|)), now);
    u.(conversations := u.conversations + [c], currentConversationId := Some(nid))
  }

  lemma CreateConversationKeepsInvariant(u: User, title: Option<string>, nid: Id, now: Time)
    requires UserOk(u) && IdsBelow(u, nid)
    ensures var u1 := AppendConversation(u, title, nid, now);
      && UserOk(u1) && IdsBelow(u1, nid + 1)
      && CurrentIndex(u1) == Some(|u.conversations|)
      && TotalMessages(u1.conversations) == TotalMessages(u.conversations)
  {
    var u1 := AppendConversation(u, title, nid, now);
    var c := u1.conversations[|u.conversations|];
    AppendFreshKeepsInvariant(u, c, nid + 1);
    assert u1 == u.(conversations := u.conversations + [c], currentConversationId := Some(nid));
  }

  // ---------------------------------------------------------------------------------------
  // switchConversation, updateConversationTitle, deleteConversation

  function PointTo(u: User, id: Id): (r: Result<User, string>)
    ensures r.Err? <==> !HasConversation(u.conversations, id)
    ensures r.Err? ==> r.error == ConversationNotFound
    ensures r.Ok? ==> r.value == u.(currentConversationId := Some(id))
  {
    if HasConversation(u.conversations, id) then Ok(u.(currentConversationId := Some(id)))
    else Err(ConversationNotFound)
  }

  /** A switch keeps the invariant and leaves the current id resolving to the chosen conversation. */
  lemma SwitchKeepsInvariant(u: User, id: Id, n: nat)
    requires UserOk(u) && IdsBelow(u, n) && PointTo(u, id).Ok?
    ensures var u1 := PointTo(u, id).value;
      UserOk(u1) && IdsBelow(u1, n) && CurrentIndex(u1) == FindConversation(u.conversations, id)
  {
  }

  function RenameConversation(u: User, id: Id, title: string, now: Time): (r: Result<User, string>)
    ensures r.Err? <==> !HasConversation(u.conversations, id)
    ensures r.Err? ==> r.error == ConversationNotFound
    ensures r.Ok? ==>
      var k := FindConversation(u.conversations, id).value;
      && r.value.(conversations := u.conversations) == u
      && |r.value.conversations| == |u.conversations|
      && r.value.conversations[k] == u.conversations[k].(title := title, updatedAt := now)
      && forall j | 0 <= j < |u.conversations| && j != k :: r.value.conversations[j] == u.conversations[j]
  {
    match FindConversation(u.conversations, id)
    case None => Err(ConversationNotFound)
    case Some(k) =>
      var c := u.conversations[k];
      Ok(u.(conversations := u.conversations[k := c.(title := title, updatedAt := now)]))
  }

  /** A rename touches no message and no id, so it keeps the invariant. */
  lemma RenameKeepsInvariant(u: User, id: Id, title: string, now: Time, n: nat)
    requires UserOk(u) && IdsBelow(u, n) && RenameConversation(u, id, title, now).Ok?
    ensures var u1 := RenameConversation(u, id, title, now).value;
      && UserOk(u1) && IdsBelow(u1, n)
      && forall j | 0 <= j < |u.conversations| ::
           u1.conversations[j].messages == u.conversations[j].messages
           && u1.conversations[j].id == u.conversations[j].id
  {
    var u1 := RenameConversation(u, id, title, now).value;
    var k := FindConversation(u.conversations, id).value;
    assert forall j | 0 <= j < |u.conversations| :: u1.conversations[j].id == u.conversations[j].id;
    var p := u.currentConversationId;
    if p.Some? {
      var i := FindConversation(u.conversations, p.value).value;
      HasConversationAt(u1.conversations, i);
    }
  }

  /** The document after `deleteConversation`: the conversation is spliced out; if it was
      current, the current id moves to the last remaining conversation by position, or null. */
  function RemoveConversation(u: User, id: Id): (r: Result<User, string>)
    ensures r.Err? <==> !HasConversation(u.conversations, id)
    ensures r.Err? ==> r.error == ConversationNotFound
    ensures r.Ok? ==>
      var k := FindConversation(u.conversations, id).value;
      var rest := u.conversations[..k] + u.conversations[k + 1..];
      && r.value.conversations == rest
      && r.value.sessionId == u.sessionId && r.value.settings == u.settings
      && (u.currentConversationId == Some(id) ==>
            r.value.currentConversationId == if rest == [] then None else Some(rest[|rest| - 1].id))
      && (u.currentConversationId != Some(id) ==>
            r.value.currentConversationId == u.currentConversationId)
  {
    match FindConversation(u.conversations, id)
    case None => Err(ConversationNotFound)
    case Some(k) =>
      var rest := u.conversations[..k] + u.conversations[k + 1..];
      var current :=
        if u.currentConversationId == Some(id) then
          (if |rest| > 0 then Some(rest[|rest| - 1].id) else None)
        else u.currentConversationId;
      Ok(u.(conversations := rest, currentConversationId := current))
  }

  /** Splicing out position `k` shifts the later conversations down by one and keeps
      ids distinct, messages valid and ids below the counter. */
  lemma SpliceKeeps(cs: seq<Conversation>, k: nat, n: nat)
    requires k < |cs| && DistinctIds(cs)
    ensures var cs1 := cs[..k] + cs[k + 1..];
      && |cs1| == |cs| - 1
      && (forall j | 0 <= j < k :: cs1[j] == cs[j])
      && (forall j | k < j < |cs| :: cs1[j - 1] == cs[j])
      && DistinctIds(cs1)
      && (forall j | 0 <= j < |cs1| :: cs1[j].id != cs[k].id)
      && ((forall i | 0 <= i < |cs| :: ConversationValid(cs[i])) ==>
            forall i | 0 <= i < |cs1| :: ConversationValid(cs1[i]))
      && ((forall i | 0 <= i < |cs| :: ConversationIdsBelow(cs[i], n)) ==>
            forall i | 0 <= i < |cs1| :: ConversationIdsBelow(cs1[i], n))
  {
    var cs1 := cs[..k] + cs[k + 1..];
    assert forall j | 0 <= j < |cs1| :: cs1[j] == cs[if j < k then j else j + 1];
  }

  /** A delete keeps the invariant; no remaining conversation has the deleted id, and
      exactly the deleted conversation's messages leave the total. */
  lemma DeleteKeepsInvariant(u: User, id: Id, n: nat)
    requires UserOk(u) && IdsBelow(u, n) && RemoveConversation(u, id).Ok?
    ensures var u1 := RemoveConversation(u, id).value;
      var k := FindConversation(u.conversations, id).value;
      && UserOk(u1) && IdsBelow(u1, n)
      && (forall j | 0 <= j < |u1.conversations| :: u1.conversations[j].id != id)
      && TotalMessages(u1.conversations) + |u.conversations[k].messages| == TotalMessages(u.conversations)
  {
    var u1 := RemoveConversation(u, id).value;
    var cs, cs1 := u.conversations, u1.conversations;
    var k := FindConversation(cs, id).value;
    TotalMessagesRemove(cs, k);
    SpliceKeeps(cs, k, n);
    DeleteKeepsCurrent(u, id);
  }

  /** After a delete the current id still resolves: it kept a surviving conversation, or
      moved to the last one, or became null. */
  lemma DeleteKeepsCurrent(u: User, id: Id)
    requires UserOk(u) && RemoveConversation(u, id).Ok?
    ensures CurrentResolves(RemoveConversation(u, id).value)
  {
    var cs, cs1 := u.conversations, RemoveConversation(u, id).value.conversations;
    var k := FindConversation(cs, id).value;
    SpliceKeeps(cs, k, 0);
    var p := u.currentConversationId;
    if p.Some? && p != Some(id) {
      var i := FindConversation(cs, p.value).value;
      if i < k {
        HasConversationAt(cs1, i);
      } else {
        HasConversationAt(cs1, i - 1);
      }
    } else if cs1 != [] {
      HasConversationAt(cs1, |cs1| - 1);
    }
  }

  // ---------------------------------------------------------------------------------------
  // getConversationHistory, getSettings, updateSettings

  /** The messages of the named conversation, else of the current one; [] when the
      conversation does not resolve. */
  function GetHistory(u: User, conversationId: Option<Id>): (r: seq<Message>)
    ensures conversationId.Some? ==>
      r == match FindConversation(u.conversations, conversationId.value)
           case Some(k) => u.conversations[k].messages
           case None => []
    ensures conversationId.None? ==>
      r == match CurrentIndex(u)
           case Some(k) => u.conversations[k].messages
           case None => []
  {
    var found := if conversationId.Some? then FindConversation(u.conversations, conversationId.value)
                 else CurrentIndex(u);
    match found
    case Some(k) => u.conversations[k].messages
    case None => []
  }

  /** The keys a settings update may carry; an absent key is `None`. Keys outside the
      schema are dropped by the strict schema and do not appear here. */
  datatype SettingsPatch = SettingsPatch(
    name: Option<string>, intensity: Option<string>, voice: Option<string>,
    primaryColor: Option<string>, showTimestamps: Option<bool>, darkMode: Option<bool>,
    voiceEnabled: Option<bool>, speechInputEnabled: Option<bool>, voiceSpeed: Option<real>)

  const EmptyPatch := SettingsPatch(None, None, None, None, None, None, None, None, None)

  /** A patch supplying every key of `s`. */
  function FullPatch(s: Settings): SettingsPatch
  {
    SettingsPatch(Some(s.name), Some(s.intensity), Some(s.voice), Some(s.primaryColor),
                  Some(s.showTimestamps), Some(s.darkMode), Some(s.voiceEnabled),
                  Some(s.speechInputEnabled), Some(s.voiceSpeed))
  }

  /** `{ ...settings.toObject(), ...patch }` */
  function MergeSettings(s: Settings, p: SettingsPatch): Settings
  {
    Settings(p.name.GetOr(s.name), p.intensity.GetOr(s.intensity), p.voice.GetOr(s.voice),
             p.primaryColor.GetOr(s.primaryColor), p.showTimestamps.GetOr(s.showTimestamps),
             p.darkMode.GetOr(s.darkMode), p.voiceEnabled.GetOr(s.voiceEnabled),
             p.speechInputEnabled.GetOr(s.speechInputEnabled), p.voiceSpeed.GetOr(s.voiceSpeed))
  }

  /** Supplied keys override, unsupplied keys keep their value, and merging the same
      patch twice is merging it once. */
  lemma MergeSettingsProperties(s: Settings, p: SettingsPatch, t: Settings)
    ensures MergeSettings(s, EmptyPatch) == s
    ensures MergeSettings(s, FullPatch(t)) == t
    ensures MergeSettings(MergeSettings(s, p), p) == MergeSettings(s, p)
    ensures p.intensity.Some? ==> MergeSettings(s, p).intensity == p.intensity.value
    ensures p.intensity.None? ==> MergeSettings(s, p).intensity == s.intensity
    ensures p.voice.Some? ==> MergeSettings(s, p).voice == p.voice.value
    ensures p.voice.None? ==> MergeSettings(s, p).voice == s.voice
  {
  }

  /** A settings update saves exactly when the merged intensity is in the enumeration. */
  lemma UpdateSettingsSaves(u: User, p: SettingsPatch, now: Time)
    requires UserOk(u)
    ensures var u1 := u.(settings := MergeSettings(u.settings, p));
      && (Save(u1, now).Ok? <==> MergeSettings(u.settings, p).intensity in Intensities)
      && (Save(u1, now).Ok? ==> UserOk(Save(u1, now).value))
  {
  }

  // ---------------------------------------------------------------------------------------
  // getConversations

  datatype LastMessage = LastMessage(kind: string, content: string, timestamp: Time)

  datatype Summary = Summary(id: Id, title: string, createdAt: Time, updatedAt: Time,
                             messageCount: nat, isActive: bool, isCurrent: bool,
                             lastMessage: Option<LastMessage>)

  function Summarize(u: User, c: Conversation): (s: Summary)
    ensures s.id == c.id && s.title == c.title
    ensures s.createdAt == c.createdAt && s.updatedAt == c.updatedAt
    ensures s.messageCount == |c.messages| && s.isActive == c.isActive
    ensures s.isCurrent <==> u.currentConversationId == Some(c.id)
    ensures s.lastMessage.Some? <==> c.messages != []
    ensures c.messages != [] ==>
      var m, l := c.messages[|c.messages| - 1], s.lastMessage.value;
      && l.kind == m.kind && l.timestamp == m.timestamp
      && |l.content| == (if |m.content| < 100 then |m.content| else 100)
      && IsPrefix(l.content, m.content)
  {
    var last :=
      if c.messages == [] then None
      else
        var m := c.messages[|c.messages| - 1];
        Some(LastMessage(m.kind, Prefix(m.content, 100), m.timestamp));
    Summary(c.id, c.title, c.createdAt, c.updatedAt, |c.messages|, c.isActive,
            u.currentConversationId == Some(c.id), last)
  }

  predicate NewestFirst(ss: seq<Summary>)
  {
    forall i, j | 0 <= i < j < |ss| :: ss[i].updatedAt >= ss[j].updatedAt
  }

  /** Places `x` before the first element that is not newer than it. */
  function InsertByRecency(x: Summary, ss: seq<Summary>): (r: seq<Summary>)
    ensures multiset(r) == multiset(ss) + multiset{x}
    ensures |r| == |ss| + 1
    ensures r[0] == x || (ss != [] && r[0] == ss[0])
  {
    if ss == [] || ss[0].updatedAt <= x.updatedAt then [x] + ss
    else
      assert ss == [ss[0]] + ss[1..];
      [ss[0]] + InsertByRecency(x, ss[1..])
  }

  lemma {:induction false} InsertKeepsNewestFirst(x: Summary, ss: seq<Summary>)
    requires NewestFirst(ss)
    ensures NewestFirst(InsertByRecency(x, ss))
    decreases |ss|
  {
    if ss != [] && ss[0].updatedAt > x.updatedAt {
      var rest := InsertByRecency(x, ss[1..]);
      var r := [ss[0]] + rest;
      InsertKeepsNewestFirst(x, ss[1..]);
      assert ss[0].updatedAt >= rest[0].updatedAt;
      forall i, j | 0 <= i < j < |r| ensures r[i].updatedAt >= r[j].updatedAt {
        if i > 0 {
          assert r[i] == rest[i - 1] && r[j] == rest[j - 1];
        } else if j > 1 {
          assert rest[0].updatedAt >= rest[j - 1].updatedAt;
        }
      }
    }
  }

  /** `sort((a, b) => b.updatedAt - a.updatedAt)`, by insertion. */
  function SortByRecency(ss: seq<Summary>): (r: seq<Summary>)
    ensures multiset(r) == multiset(ss)
    ensures NewestFirst(r)
  {
    if ss == [] then []
    else
      assert ss == [ss[0]] + ss[1..];
      var sorted := SortByRecency(ss[1..]);
      InsertKeepsNewestFirst(ss[0], sorted);
      InsertByRecency(ss[0], sorted)
  }

  function Summaries(u: User): (r: seq<Summary>)
    ensures |r| == |u.conversations|
    ensures forall i | 0 <= i < |r| :: r[i] == Summarize(u, u.conversations[i])
  {
    seq(|u.conversations|, i requires 0 <= i < |u.conversations| => Summarize(u, u.conversations[i]))
  }

  function SortedSummaries(u: User): seq<Summary>
  {
    SortByRecency(Summaries(u))
  }

  /** One summary per conversation, newest first. */
  lemma GetConversationsSpec(u: User)
    ensures |SortedSummaries(u)| == |u.conversations|
    ensures NewestFirst(SortedSummaries(u))
    ensures forall i | 0 <= i < |u.conversations| :: Summarize(u, u.conversations[i]) in SortedSummaries(u)
    ensures forall s | s in SortedSummaries(u) ::
      exists i | 0 <= i < |u.conversations| :: s == Summarize(u, u.conversations[i])
  {
    var r, ss := SortedSummaries(u), Summaries(u);
    assert |r| == |multiset(r)| == |multiset(ss)| == |ss|;
    forall i | 0 <= i < |u.conversations| ensures Summarize(u, u.conversations[i]) in r {
      assert ss[i] in multiset(ss);
    }
    forall s | s in r ensures exists i | 0 <= i < |u.conversations| :: s == Summarize(u, u.conversations[i]) {
      assert s in multiset(ss);
      var i :| 0 <= i < |ss| && ss[i] == s;
    }
  }

  // ---------------------------------------------------------------------------------------
  // searchConversations

  predicate MatchesTerm(m: Message, term: string)
  {
    Contains(ToLower(m.content), ToLower(term))
  }

  /** `messages.filter(...)` of the messages whose lowercased content contains the
      lowercased term. */
  function MatchingMessages(ms: seq<Message>, term: string): (r: seq<Message>)
    ensures |r| <= |ms|
    ensures forall m | m in r :: m in ms && MatchesTerm(m, term)
    ensures forall m | m in ms && MatchesTerm(m, term) :: m in r
  {
    if ms == [] then []
    else (if MatchesTerm(ms[0], term) then [ms[0]] else []) + MatchingMessages(ms[1..], term)
  }

  /** The filter distributes over concatenation: filtering a list is filtering its parts
      and joining the results in the same order. */
  lemma {:induction false} MatchingMessagesAppend(a: seq<Message>, b: seq<Message>, term: string)
    ensures MatchingMessages(a + b, term) == MatchingMessages(a, term) + MatchingMessages(b, term)
  {
    if a == [] {
      assert a + b == b;
    } else {
      assert (a + b)[1..] == a[1..] + b;
      MatchingMessagesAppend(a[1..], b, term);
    }
  }

  /** Two matching messages keep their relative order among the hits. */
  lemma MatchingMessagesKeepsOrder(ms: seq<Message>, i: int, j: int, term: string)
    requires 0 <= i < j < |ms| && MatchesTerm(ms[i], term) && MatchesTerm(ms[j], term)
    ensures exists p, q | 0 <= p < q < |MatchingMessages(ms, term)| ::
      MatchingMessages(ms, term)[p] == ms[i] && MatchingMessages(ms, term)[q] == ms[j]
  {
    var r := MatchingMessages(ms, term);
    var front, back := MatchingMessages(ms[..j], term), MatchingMessages(ms[j..], term);
    assert r == front + back by {
      assert ms == ms[..j] + ms[j..];
      MatchingMessagesAppend(ms[..j], ms[j..], term);
    }
    assert back != [] && back[0] == ms[j] by {
      assert ms[j..][1..] == ms[j + 1..];
    }
    assert ms[i] in front by {
      assert ms[..j][i] == ms[i];
    }
    var p :| 0 <= p < |front| && front[p] == ms[i];
    var q := |front|;
    assert 0 <= p < q < |r| && r[p] == ms[i] && r[q] == ms[j];
  }

  datatype Hit = Hit(id: Id, kind: string, content: string, timestamp: Time)

  datatype SearchGroup = SearchGroup(conversationId: Id, conversationTitle: string,
                                     matchingMessages: seq<Hit>)

  function HitOf(m: Message): Hit
  {
    Hit(m.id, m.kind, m.content, m.timestamp)
  }

  function GroupOf(c: Conversation, term: string): SearchGroup
  {
    var ms := MatchingMessages(c.messages, term);
    SearchGroup(c.id, c.title, seq(|ms|, i requires 0 <= i < |ms| => HitOf(ms[i])))
  }

  predicate HasMatch(c: Conversation, term: string)
  {
    MatchingMessages(c.messages, term) != []
  }

  /** Every group before the `slice`: one per conversation with a match, in list order. */
  function SearchAll(cs: seq<Conversation>, term: string): (r: seq<SearchGroup>)
    ensures |r| <= |cs|
    ensures forall g | g in r :: g.matchingMessages != []
    ensures forall i | 0 <= i < |cs| && HasMatch(cs[i], term) :: GroupOf(cs[i], term) in r
    ensures forall g | g in r :: exists i | 0 <= i < |cs| :: HasMatch(cs[i], term) && g == GroupOf(cs[i], term)
  {
    if cs == [] then []
    else
      var n := |cs| - 1;
      var prior := SearchAll(cs[..n], term);
      assert forall i | 0 <= i < n :: cs[..n][i] == cs[i];
      if HasMatch(cs[n], term) then prior + [GroupOf(cs[n], term)] else prior
  }

  /** One more conversation adds its group at the end, when it has a hit. */
  lemma SearchAllSnoc(cs: seq<Conversation>, c: Conversation, term: string)
    ensures SearchAll(cs + [c], term)
            == SearchAll(cs, term) + if HasMatch(c, term) then [GroupOf(c, term)] else []
  {
    assert (cs + [c])[..|cs|] == cs;
  }

  /** The search distributes over concatenation of conversation lists: the groups of
      the earlier conversations come first. */
  lemma {:induction false} SearchAllAppend(a: seq<Conversation>, b: seq<Conversation>, term: string)
    ensures SearchAll(a + b, term) == SearchAll(a, term) + SearchAll(b, term)
    decreases |b|
  {
    if b == [] {
      assert a + b == a;
    } else {
      var n := |b| - 1;
      assert a + b == (a + b[..n]) + [b[n]];
      assert b == b[..n] + [b[n]];
      SearchAllSnoc(a + b[..n], b[n], term);
      SearchAllSnoc(b[..n], b[n], term);
      SearchAllAppend(a, b[..n], term);
    }
  }

  /** A conversation with a hit splits the result into the groups before it, its own
      group and the groups after it. */
  lemma SearchAllAround(cs: seq<Conversation>, j: int, term: string)
    requires 0 <= j < |cs| && HasMatch(cs[j], term)
    ensures SearchAll(cs, term)
            == SearchAll(cs[..j], term) + [GroupOf(cs[j], term)] + SearchAll(cs[j + 1..], term)
  {
    assert cs == cs[..j] + [cs[j]] + cs[j + 1..];
    SearchAllSnoc(cs[..j], cs[j], term);
    SearchAllAppend(cs[..j] + [cs[j]], cs[j + 1..], term);
  }

  /** A conversation with a hit has its group at some position of the result. */
  lemma SearchAllHasGroup(cs: seq<Conversation>, i: int, term: string)
    requires 0 <= i < |cs| && HasMatch(cs[i], term)
    ensures exists p | 0 <= p < |SearchAll(cs, term)| :: SearchAll(cs, term)[p] == GroupOf(cs[i], term)
  {
    assert GroupOf(cs[i], term) in SearchAll(cs, term);
  }

  /** Groups come in the order of the conversation list: the group of an earlier
      conversation precedes the group of a later one. */
  lemma SearchAllKeepsListOrder(cs: seq<Conversation>, i: int, j: int, term: string)
    requires 0 <= i < j < |cs| && HasMatch(cs[i], term) && HasMatch(cs[j], term)
    ensures exists p, q | 0 <= p < q < |SearchAll(cs, term)| ::
      SearchAll(cs, term)[p] == GroupOf(cs[i], term) && SearchAll(cs, term)[q] == GroupOf(cs[j], term)
  {
    var front := SearchAll(cs[..j], term);
    SearchAllAround(cs, j, term);
    assert cs[..j][i] == cs[i];
    SearchAllHasGroup(cs[..j], i, term);
    var p :| 0 <= p < |front| && front[p] == GroupOf(cs[i], term);
    var r, q := SearchAll(cs, term), |front|;
    assert r[p] == GroupOf(cs[i], term) && r[q] == GroupOf(cs[j], term);
  }

  /** `results.slice(0, limit)`; `None` is `parseInt` giving NaN, which slices to []. */
  function SliceTo<T>(s: seq<T>, limit: Option<int>): (r: seq<T>)
    ensures |r| <= |s| && r == s[..|r|]
    ensures limit.None? ==> r == []
    ensures limit.Some? && 0 <= limit.value ==> |r| == if limit.value < |s| then limit.value else |s|
    ensures limit.Some? && limit.value < 0 ==> |r| == if |s| + limit.value > 0 then |s| + limit.value else 0
  {
    var end :=
      match limit
      case None => 0
      case Some(n) =>
        if n >= 0 then (if n < |s| then n else |s|)
        else (if |s| + n > 0 then |s| + n else 0);
    s[..end]
  }

  /** The loop of `searchConversations`, proved against `SearchAll`. */
  method CollectMatches(cs: seq<Conversation>, term: string) returns (groups: seq<SearchGroup>)
    ensures groups == SearchAll(cs, term)
  {
    groups := [];
    var i := 0;
    while i < |cs|
      invariant 0 <= i <= |cs|
      invariant groups == SearchAll(cs[..i], term)
    {
      assert cs[..i + 1][..i] == cs[..i];
      if HasMatch(cs[i], term) {
        groups := groups + [GroupOf(cs[i], term)];
      }
      i := i + 1;
    }
    assert cs[..i] == cs;
  }

  // ---------------------------------------------------------------------------------------
  // addAudioCacheToMessage

  /** Index of the first message with the given id. */
  function FindMessage(ms: seq<Message>, mid: Id): (r: Option<nat>)
    ensures r.Some? ==> r.value < |ms| && ms[r.value].id == mid
    ensures r.Some? ==> forall j | 0 <= j < r.value :: ms[j].id != mid
    ensures r.None? <==> forall j | 0 <= j < |ms| :: ms[j].id != mid
  {
    if ms == [] then None
    else if ms[0].id == mid then Some(0)
    else match FindMessage(ms[1..], mid)
      case None => None
      case Some(j) => Some(j + 1)
  }

  /** The first conversation holding a message with the id, and that message's position. */
  function LocateMessage(cs: seq<Conversation>, mid: Id): (r: Option<(nat, nat)>)
    ensures r.Some? ==> r.value.0 < |cs| && FindMessage(cs[r.value.0].messages, mid) == Some(r.value.1)
    ensures r.Some? ==> r.value.1 < |cs[r.value.0].messages| && cs[r.value.0].messages[r.value.1].id == mid
    ensures r.Some? ==> forall i | 0 <= i < r.value.0 :: FindMessage(cs[i].messages, mid).None?
    ensures r.None? <==> forall i | 0 <= i < |cs| :: FindMessage(cs[i].messages, mid).None?
  {
    if cs == [] then None
    else match FindMessage(cs[0].messages, mid)
      case Some(j) => Some((0, j))
      case None =>
        match LocateMessage(cs[1..], mid)
        case None => None
        case Some((i, j)) => Some((i + 1, j))
  }

  /** The nested `for` loops with `break` of `addAudioCacheToMessage`. */
  method ScanForMessage(cs: seq<Conversation>, mid: Id) returns (r: Option<(nat, nat)>)
    ensures r == LocateMessage(cs, mid)
  {
    r := None;
    var i := 0;
    while i < |cs|
      invariant 0 <= i <= |cs| && r.None?
      invariant forall i' | 0 <= i' < i :: FindMessage(cs[i'].messages, mid).None?
    {
      var ms := cs[i].messages;
      var j := 0;
      while j < |ms|
        invariant 0 <= j <= |ms| && r.None?
        invariant forall j' | 0 <= j' < j :: ms[j'].id != mid
      {
        if ms[j].id == mid {
          r := Some((i, j));
          break;
        }
        j := j + 1;
      }
      if r.Some? {
        FirstMatchIsLocated(cs, mid, i, j);
        return;
      }
      i := i + 1;
    }
  }

  /** The first message with the id, found at (i, j) by scanning, is the one `LocateMessage` names. */
  lemma FirstMatchIsLocated(cs: seq<Conversation>, mid: Id, i: nat, j: nat)
    requires i < |cs| && j < |cs[i].messages| && cs[i].messages[j].id == mid
    requires forall j' | 0 <= j' < j :: cs[i].messages[j'].id != mid
    requires forall i' | 0 <= i' < i :: FindMessage(cs[i'].messages, mid).None?
    ensures LocateMessage(cs, mid) == Some((i, j))
  {
    var fm := FindMessage(cs[i].messages, mid);
    assert fm.Some?;
    assert !(fm.value < j);
    assert fm == Some(j);
    var loc := LocateMessage(cs, mid);
    assert loc.Some?;
    assert !(loc.value.0 < i);
    assert !(loc.value.0 > i);
  }

  /** The document after `addAudioCacheToMessage`: the first message with the id gets the
      descriptor and its conversation's `updatedAt` is refreshed. */
  function AttachAudio(u: User, mid: Id, audio: Option<AudioCache>, now: Time): (r: Result<User, string>)
    ensures r.Err? <==> LocateMessage(u.conversations, mid).None?
    ensures r.Err? ==> r.error == MessageNotFound
    ensures r.Ok? ==>
      var (i, j) := LocateMessage(u.conversations, mid).value;
      && |r.value.conversations| == |u.conversations|
      && r.value.currentConversationId == u.currentConversationId
      && r.value.conversations[i].messages
         == u.conversations[i].messages[j := u.conversations[i].messages[j].(audioCache := audio)]
      && r.value.conversations[i].updatedAt == now
      && r.value.conversations[i].(messages := u.conversations[i].messages, updatedAt := u.conversations[i].updatedAt)
         == u.conversations[i]
      && r.value.(conversations := u.conversations) == u
      && forall i' | 0 <= i' < |u.conversations| && i' != i :: r.value.conversations[i'] == u.conversations[i']
  {
    match LocateMessage(u.conversations, mid)
    case None => Err(MessageNotFound)
    case Some((i, j)) =>
      var c := u.conversations[i];
      var m := c.messages[j].(audioCache := audio);
      Ok(u.(conversations := u.conversations[i := c.(messages := c.messages[j := m], updatedAt := now)]))
  }

  /** Attaching audio changes no id, type or content, so it keeps the invariant. */
  lemma AttachAudioKeepsInvariant(u: User, mid: Id, audio: Option<AudioCache>, now: Time, n: nat)
    requires UserOk(u) && IdsBelow(u, n) && AttachAudio(u, mid, audio, now).Ok?
    ensures var u1 := AttachAudio(u, mid, audio, now).value;
      && UserOk(u1) && IdsBelow(u1, n)
      && TotalMessages(u1.conversations) == TotalMessages(u.conversations)
  {
    var (i, j) := LocateMessage(u.conversations, mid).value;
    var c := u.conversations[i];
    var m := c.messages[j].(audioCache := audio);
    var c1 := c.(messages := c.messages[j := m], updatedAt := now);
    assert ConversationValid(c) && ConversationIdsBelow(c, n);
    assert MessageValid(c.messages[j]) && c.messages[j].id < n;
    ReplaceMessageKeepsValid(c, j, m, now, n);
    ReplaceConversationKeepsInvariant(u, i, c1, n);
    TotalMessagesUpdate(u.conversations, i, c1);
  }

  // ---------------------------------------------------------------------------------------
  // The user collection

  /** What `getOrCreateUser` yields for `sid` in `users`, with `n` the next free ObjectId. */
  function Resolve(users: map<string, User>, n: nat, sid: string, now: Time): User
  {
    if sid in users then users[sid] else NewUser(sid, n, n + 1, now)
  }

  /** The next free ObjectId after `getOrCreateUser`. */
  function NextAfterResolve(users: map<string, User>, n: nat, sid: string): nat
  {
    if sid in users then n else n + 2
  }

  lemma IdsBelowGrow(u: User, n: nat, n': nat)
    requires IdsBelow(u, n) && n <= n'
    ensures IdsBelow(u, n')
  {
    forall i | 0 <= i < |u.conversations| ensures ConversationIdsBelow(u.conversations[i], n') {
      assert ConversationIdsBelow(u.conversations[i], n);
    }
  }

  /** What `addMessage` returns and leaves stored for the resolved document `u`: the
      appended-to document, saved, or `u` itself when the save rejects the message. */
  function AddMessageOutcome(u: User, kind: string, content: string, audio: Option<AudioCache>,
                             nid: Id, now: Time): (Result<Message, string>, User)
  {
    var appended := AppendMessage(u, kind, content, audio, nid, now);
    match Save(appended.0, now)
    case Ok(saved) => (Ok(appended.1), saved)
    case Err(e) => (Err(e), u)
  }

  /** `addMessage` succeeds exactly when the new message has a valid type and content,
      and whatever it stores keeps the invariant. */
  lemma AddMessageOutcomeKeepsInvariant(u: User, kind: string, content: string,
                                        audio: Option<AudioCache>, nid: Id, now: Time)
    requires UserOk(u) && IdsBelow(u, nid)
    ensures var outcome := AddMessageOutcome(u, kind, content, audio, nid, now);
      && (outcome.0.Ok? <==> MessageValid(Message(nid + 1, kind, content, now, audio)))
      && (outcome.0.Ok? ==> outcome.0.value == Message(nid + 1, kind, content, now, audio))
      && UserOk(outcome.1) && IdsBelow(outcome.1, nid + 2) && outcome.1.sessionId == u.sessionId
  {
    AppendMessageKeepsInvariant(u, kind, content, audio, nid, now);
    IdsBelowGrow(u, nid, nid + 2);
  }

  /** A stored message lands at the end of the current conversation's history. */
  lemma AddMessageAppendsToHistory(u: User, kind: string, content: string,
                                   audio: Option<AudioCache>, nid: Id, now: Time)
    requires UserOk(u) && IdsBelow(u, nid)
    requires MessageValid(Message(nid + 1, kind, content, now, audio))
    ensures var outcome := AddMessageOutcome(u, kind, content, audio, nid, now);
      GetHistory(outcome.1, None) == GetHistory(u, None) + [Message(nid + 1, kind, content, now, audio)]
  {
    AppendMessageKeepsInvariant(u, kind, content, audio, nid, now);
    var u1 := AppendMessage(u, kind, content, audio, nid, now).0;
    AppendExtendsHistory(u, kind, content, audio, nid, now);
    SaveKeepsHistory(u1, now);
  }

  /** `addMessage` extends the current history by exactly the new message. */
  lemma AppendExtendsHistory(u: User, kind: string, content: string,
                             audio: Option<AudioCache>, nid: Id, now: Time)
    requires UserOk(u) && IdsBelow(u, nid)
    ensures var (u1, m) := AppendMessage(u, kind, content, audio, nid, now);
      GetHistory(u1, None) == GetHistory(u, None) + [m]
  {
    var r := AppendMessage(u, kind, content, audio, nid, now);
    var cs, cs1 := u.conversations, r.0.conversations;
    match CurrentIndex(u)
    case Some(k) =>
      var id := cs[k].id;
      assert cs1[k].id == id && cs1[k].messages == cs[k].messages + [r.1];
      assert forall j | 0 <= j < k :: cs1[j].id != id by {
        forall j | 0 <= j < k ensures cs1[j].id != id {
          assert cs1[j] == cs[j];
        }
      }
      FirstConversationWithId(cs1, id, k);
    case None =>
      var n := |cs|;
      assert cs1[n].id == nid && cs1[n].messages == [r.1];
      assert forall j | 0 <= j < n :: cs1[j].id != nid by {
        forall j | 0 <= j < n ensures cs1[j].id != nid {
          assert ConversationIdsBelow(cs[j], nid);
          assert cs1[j] == cs[j];
        }
      }
      FirstConversationWithId(cs1, nid, n);
  }

  /** The first position holding an id is where `FindConversation` finds it. */
  lemma FirstConversationWithId(cs: seq<Conversation>, id: Id, k: nat)
    requires k < |cs| && cs[k].id == id
    requires forall j | 0 <= j < k :: cs[j].id != id
    ensures FindConversation(cs, id) == Some(k)
  {
  }

  lemma SaveKeepsHistory(u: User, now: Time)
    requires Save(u, now).Ok?
    ensures GetHistory(Save(u, now).value, None) == GetHistory(u, None)
  {
    var saved := Save(u, now).value;
    assert saved.conversations == u.conversations;
    assert saved.currentConversationId == u.currentConversationId;
  }

  /** A save changes only `updatedAt`, so a saved document keeps the invariant. */
  lemma SaveKeepsInvariant(u: User, now: Time, n: nat)
    requires CurrentResolves(u) && DistinctIds(u.conversations) && IdsBelow(u, n)
    requires Save(u, now).Ok?
    ensures UserOk(Save(u, now).value) && IdsBelow(Save(u, now).value, n)
    ensures Save(u, now).value.sessionId == u.sessionId
  {
  }

  /** Writing a key twice leaves the second value. */
  lemma OverwriteTwice(m: map<string, User>, k: string, a: User, b: User)
    ensures m[k := a][k := b] == m[k := b]
  {
  }

  /** The `users` collection. Keying by session id is the unique index on `sessionId`. */
  class UserStore {
    var users: map<string, User>
    var nextId: nat

    ghost predicate Valid()
      reads this
    {
      forall sid | sid in users ::
        users[sid].sessionId == sid && UserOk(users[sid]) && IdsBelow(users[sid], nextId)
    }

    constructor ()
      ensures Valid() && users == map[] && nextId == 0
    {
      users := map[];
      nextId := 0;
    }

    /** Replaces the document of `sid` by `u` and advances the id counter to `n`. */
    method Put(sid: string, u: User, n: nat)
      requires Valid() && n >= nextId
      requires u.sessionId == sid && UserOk(u) && IdsBelow(u, n)
      modifies this
      ensures Valid() && users == old(users)[sid := u] && nextId == n
    {
      forall s | s in users && s != sid ensures IdsBelow(users[s], n) {
        IdsBelowGrow(users[s], nextId, n);
      }
      users := users[sid := u];
      nextId := n;
    }

    method GetOrCreateUser(sid: string, now: Time) returns (u: User)
      requires Valid() && sid != ""
      modifies this
      ensures Valid()
      ensures u == Resolve(old(users), old(nextId), sid, now)
      ensures users == old(users)[sid := u]
      ensures nextId == NextAfterResolve(old(users), old(nextId), sid)
    {
      if sid in users {
        u := users[sid];
      } else {
        u := NewUser(sid, nextId, nextId + 1, now);
        Put(sid, u, nextId + 2);
      }
    }

    method AddMessage(sid: string, kind: string, content: string, audio: Option<AudioCache>, now: Time)
      returns (r: Result<Message, string>)
      requires Valid() && sid != ""
      modifies this
      ensures Valid()
      ensures var f := NextAfterResolve(old(users), old(nextId), sid);
        var outcome := AddMessageOutcome(Resolve(old(users), old(nextId), sid, now), kind, content, audio, f, now);
        r == outcome.0 && users == old(users)[sid := outcome.1] && nextId == f + 2
    {
      var u0 := GetOrCreateUser(sid, now);
      var f := nextId;
      var outcome := AddMessageOutcome(u0, kind, content, audio, f, now);
      AddMessageOutcomeKeepsInvariant(u0, kind, content, audio, f, now);
      OverwriteTwice(old(users), sid, u0, outcome.1);
      Put(sid, outcome.1, f + 2);
      r := outcome.0;
    }

    method GetConversationHistory(sid: string, conversationId: Option<Id>, now: Time)
      returns (ms: seq<Message>)
      requires Valid() && sid != ""
      modifies this
      ensures Valid()
      ensures ms == GetHistory(Resolve(old(users), old(nextId), sid, now), conversationId)
      ensures users == old(users)[sid := Resolve(old(users), old(nextId), sid, now)]
      ensures nextId == NextAfterResolve(old(users), old(nextId), sid)
    {
      var u := GetOrCreateUser(sid, now);
      ms := GetHistory(u, conversationId);
    }

    method UpdateSettings(sid: string, patch: SettingsPatch, now: Time) returns (r: Result<Settings, string>)
      requires Valid() && sid != ""
      modifies this
      ensures Valid()
      ensures var u0 := Resolve(old(users), old(nextId), sid, now);
        var u1 := u0.(settings := MergeSettings(u0.settings, patch));
        && nextId == NextAfterResolve(old(users), old(nextId), sid)
        && match Save(u1, now)
           case Ok(saved) => r == Ok(saved.settings) && users == old(users)[sid := saved]
           case Err(e) => r == Err(e) && users == old(users)[sid := u0]
    {
      var u0 := GetOrCreateUser(sid, now);
      var u1 := u0.(settings := MergeSettings(u0.settings, patch));
      UpdateSettingsSaves(u0, patch, now);
      match Save(u1, now)
      case Ok(saved) =>
        OverwriteTwice(old(users), sid, u0, saved);
        Put(sid, saved, nextId);
        r := Ok(saved.settings);
      case Err(e) =>
        r := Err(e);
    }

    method GetSettings(sid: string, now: Time) returns (s: Settings)
      requires Valid() && sid != ""
      modifies this
      ensures Valid()
      ensures s == Resolve(old(users), old(nextId), sid, now).settings
      ensures users == old(users)[sid := Resolve(old(users), old(nextId), sid, now)]
      ensures nextId == NextAfterResolve(old(users), old(nextId), sid)
    {
      var u := GetOrCreateUser(sid, now);
      s := u.settings;
    }

    method CreateConversation(sid: string, title: Option<string>, now: Time) returns (c: Conversation)
      requires Valid() && sid != ""
      modifies this
      ensures Valid()
      ensures var u0 := Resolve(old(users), old(nextId), sid, now);
        var f := NextAfterResolve(old(users), old(nextId), sid);
        var u1 := AppendConversation(u0, title, f, now);
        && c == NewConversation(f, Some(ChosenTitle(title, |u0.conversations|)), now)
        && users == old(users)[sid := u1.(updatedAt := now)]
        && nextId == f + 1
    {
      var u0 := GetOrCreateUser(sid, now);
      var f := nextId;
      var u1 := AppendConversation(u0, title, f, now);
      CreateConversationKeepsInvariant(u0, title, f, now);
      OverwriteTwice(old(users), sid, u0, u1.(updatedAt := now));
      Put(sid, u1.(updatedAt := now), f + 1);
      c := u1.conversations[|u0.conversations|];
    }

    method GetConversations(sid: string, now: Time) returns (ss: seq<Summary>)
      requires Valid() && sid != ""
      modifies this
      ensures Valid()
      ensures ss == SortedSummaries(Resolve(old(users), old(nextId), sid, now))
      ensures users == old(users)[sid := Resolve(old(users), old(nextId), sid, now)]
      ensures nextId == NextAfterResolve(old(users), old(nextId), sid)
    {
      var u := GetOrCreateUser(sid, now);
      ss := SortedSummaries(u);
    }

    method SwitchConversation(sid: string, id: Id, now: Time) returns (r: Result<Conversation, string>)
      requires Valid() && sid != ""
      modifies this
      ensures Valid()
      ensures var u0 := Resolve(old(users), old(nextId), sid, now);
        && nextId == NextAfterResolve(old(users), old(nextId), sid)
        && match PointTo(u0, id)
           case Ok(u1) =>
             && r == Ok(u0.conversations[FindConversation(u0.conversations, id).value])
             && users == old(users)[sid := u1.(updatedAt := now)]
           case Err(e) => r == Err(e) && users == old(users)[sid := u0]
    {
      var u0 := GetOrCreateUser(sid, now);
      match PointTo(u0, id)
      case Ok(u1) =>
        SwitchKeepsInvariant(u0, id, nextId);
        OverwriteTwice(old(users), sid, u0, u1.(updatedAt := now));
        Put(sid, u1.(updatedAt := now), nextId);
        r := Ok(u0.conversations[FindConversation(u0.conversations, id).value]);
      case Err(e) =>
        r := Err(e);
    }

    method DeleteConversation(sid: string, id: Id, now: Time) returns (r: Result<bool, string>)
      requires Valid() && sid != ""
      modifies this
      ensures Valid()
      ensures var u0 := Resolve(old(users), old(nextId), sid, now);
        && nextId == NextAfterResolve(old(users), old(nextId), sid)
        && match RemoveConversation(u0, id)
           case Ok(u1) => r == Ok(true) && users == old(users)[sid := u1.(updatedAt := now)]
           case Err(e) => r == Err(e) && users == old(users)[sid := u0]
    {
      var u0 := GetOrCreateUser(sid, now);
      match RemoveConversation(u0, id)
      case Ok(u1) =>
        DeleteKeepsInvariant(u0, id, nextId);
        OverwriteTwice(old(users), sid, u0, u1.(updatedAt := now));
        Put(sid, u1.(updatedAt := now), nextId);
        r := Ok(true);
      case Err(e) =>
        r := Err(e);
    }

    method UpdateConversationTitle(sid: string, id: Id, title: string, now: Time)
      returns (r: Result<Conversation, string>)
      requires Valid() && sid != ""
      modifies this
      ensures Valid()
      ensures var u0 := Resolve(old(users), old(nextId), sid, now);
        && nextId == NextAfterResolve(old(users), old(nextId), sid)
        && match RenameConversation(u0, id, title, now)
           case Ok(u1) =>
             && r == Ok(u1.conversations[FindConversation(u0.conversations, id).value])
             && users == old(users)[sid := u1.(updatedAt := now)]
           case Err(e) => r == Err(e) && users == old(users)[sid := u0]
    {
      var u0 := GetOrCreateUser(sid, now);
      match RenameConversation(u0, id, title, now)
      case Ok(u1) =>
        RenameKeepsInvariant(u0, id, title, now, nextId);
        OverwriteTwice(old(users), sid, u0, u1.(updatedAt := now));
        Put(sid, u1.(updatedAt := now), nextId);
        r := Ok(u1.conversations[FindConversation(u0.conversations, id).value]);
      case Err(e) =>
        r := Err(e);
    }

    method AddAudioCacheToMessage(sid: string, mid: Id, audio: Option<AudioCache>, now: Time)
      returns (r: Result<Message, string>)
      requires Valid() && sid != ""
      modifies this
      ensures Valid()
      ensures var u0 := Resolve(old(users), old(nextId), sid, now);
        && nextId == NextAfterResolve(old(users), old(nextId), sid)
        && match AttachAudio(u0, mid, audio, now)
           case Ok(u1) =>
             var (i, j) := LocateMessage(u0.conversations, mid).value;
             && r == Ok(u1.conversations[i].messages[j])
             && users == old(users)[sid := u1.(updatedAt := now)]
           case Err(e) => r == Err(e) && users == old(users)[sid := u0]
    {
      var u0 := GetOrCreateUser(sid, now);
      var loc := ScanForMessage(u0.conversations, mid);
      match AttachAudio(u0, mid, audio, now)
      case Ok(u1) =>
        AttachAudioKeepsInvariant(u0, mid, audio, now, nextId);
        OverwriteTwice(old(users), sid, u0, u1.(updatedAt := now));
        Put(sid, u1.(updatedAt := now), nextId);
        r := Ok(u1.conversations[loc.value.0].messages[loc.value.1]);
      case Err(e) =>
        r := Err(e);
    }

    method SearchConversations(sid: string, term: string, limit: Option<int>, now: Time)
      returns (groups: seq<SearchGroup>)
      requires Valid() && sid != ""
      modifies this
      ensures Valid()
      ensures groups == SliceTo(SearchAll(Resolve(old(users), old(nextId), sid, now).conversations, term), limit)
      ensures users == old(users)[sid := Resolve(old(users), old(nextId), sid, now)]
      ensures nextId == NextAfterResolve(old(users), old(nextId), sid)
    {
      var u := GetOrCreateUser(sid, now);
      var all := CollectMatches(u.conversations, term);
      groups := SliceTo(all, limit);
    }
  }

  /** A stored document for the session whose id comes back from `getOrCreateUser`, and
      at most one document per session id. */
  lemma StoreHoldsOneUserPerSession(users: map<string, User>, a: string, b: string)
    requires forall sid | sid in users :: users[sid].sessionId == sid
    requires a in users && b in users && users[a].sessionId == users[b].sessionId
    ensures a == b
  {
  }
}
