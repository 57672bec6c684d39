/** The browser client of app.js: the `chatbotState` object with its rolling OpenAI
    history, the mood shown beside the avatar, the message list and the settings, and
    the `adjustColor` arithmetic on hex colours.

    The OpenAI call is an input (`ApiOutcome`), timestamps are parameters, and the DOM,
    `localStorage` and the random mood phrase are not modelled. */
module ChatClient {
  import opened Wrappers
  import opened Text
  import ChatServer

  // ---------------------------------------------------------------------------------------
  // adjustColor

  /** A JavaScript number as `parseInt` and the arithmetic after it produce it. */
  datatype Num = Finite(n: int) | NaN

  function HexDigitValue(c: char): (r: Option<nat>)
    ensures r.Some? ==> r.value < 16
  {
    if '0' <= c <= '9' then Some(c as int - '0' as int)
    else if 'a' <= c <= 'f' then Some(c as int - 'a' as int + 10)
    else if 'A' <= c <= 'F' then Some(c as int - 'A' as int + 10)
    else None
  }

  predicate IsHexDigit(c: char)
  {
    HexDigitValue(c).Some?
  }

  /** The values of the longest run of hex digits at the front of `s`. */
  function HexRun(s: string): (ds: seq<nat>)
    ensures |ds| <= |s|
    ensures forall k | 0 <= k < |ds| :: ds[k] < 16 && HexDigitValue(s[k]) == Some(ds[k])
    ensures |ds| < |s| ==> !IsHexDigit(s[|ds|])
  {
    if s == [] || HexDigitValue(s[0]).None? then []
    else [HexDigitValue(s[0]).value] + HexRun(s[1..])
  }

  /** The number the digits spell in base 16, most significant first. */
  function HexValue(ds: seq<nat>): nat
  {
    if ds == [] then 0 else HexValue(ds[..|ds| - 1]) * 16 + ds[|ds| - 1]
  }

  /** `parseInt(s, 16)`: leading whitespace is skipped, one sign is read, a `0x`/`0X`
      prefix is dropped, and the longest run of hex digits is read; no digit is NaN. */
  function ParseInt16(s: string): Num
  {
    ParseSigned(TrimStart(s))
  }

  function ParseSigned(t: string): Num
  {
    if t != [] && t[0] == '-' then Negate(ParseDigits(StripHexPrefix(t[1..])))
    else if t != [] && t[0] == '+' then ParseDigits(StripHexPrefix(t[1..]))
    else ParseDigits(StripHexPrefix(t))
  }

  function StripHexPrefix(u: string): string
  {
    if |u| >= 2 && u[0] == '0' && (u[1] == 'x' || u[1] == 'X') then u[2..] else u
  }

  function ParseDigits(w: string): Num
  {
    var ds := HexRun(w);
    if ds == [] then NaN else Finite(HexValue(ds))
  }

  function Negate(x: Num): Num
  {
    if x.NaN? then NaN else Finite(-x.n)
  }

  /** `s.substring(a, b)` for `a <= b`: both ends are cut back to the length. */
  function Substring(s: string, a: nat, b: nat): (r: string)
    requires a <= b
    ensures b <= |s| ==> r == s[a..b]
  {
    var i := if a < |s| then a else |s|;
    var j := if b < |s| then b else |s|;
    s[i..j]
  }

  /** `s.replace('#', '')`: only the first '#' goes. */
  function RemoveFirstHash(s: string): (r: string)
    ensures (forall i | 0 <= i < |s| :: s[i] != '#') ==> r == s
    ensures s != [] && s[0] == '#' ==> r == s[1..]
  {
    if s == [] then s
    else if s[0] == '#' then s[1..]
    else [s[0]] + RemoveFirstHash(s[1..])
  }

  /** `Math.max(0, Math.min(255, c + percent))`; NaN stays NaN. */
  function AdjustChannel(c: Num, percent: int): (r: Num)
    ensures c.NaN? <==> r.NaN?
    ensures r.Finite? ==> 0 <= r.n <= 255
    ensures c.Finite? && 0 <= c.n + percent <= 255 ==> r == Finite(c.n + percent)
    ensures c.Finite? && c.n + percent < 0 ==> r == Finite(0)
    ensures c.Finite? && c.n + percent > 255 ==> r == Finite(255)
  {
    match c
    case NaN => NaN
    case Finite(n) =>
      var m := if n + percent < 255 then n + percent else 255;
      Finite(if m > 0 then m else 0)
  }

  /** `n.toString(16).padStart(2, '0')` for a byte. */
  function Hex2(n: nat): (r: string)
    requires n < 256
    ensures |r| == 2
  {
    [DigitChar(n / 16), DigitChar(n % 16)]
  }

  /** The text of a channel: its two hex digits, or "NaN", which `padStart` leaves alone. */
  function ChannelText(c: Num): string
    requires c.Finite? ==> 0 <= c.n <= 255
  {
    if c.NaN? then "NaN" else Hex2(c.n)
  }

  /** `adjustColor(hex, percent)` */
  function AdjustColor(hex: string, percent: int): (r: string)
    ensures |r| >= 7 && r[0] == '#'
  {
    var h := RemoveFirstHash(hex);
    "#" + ChannelText(ChannelAt(h, 0, percent)) + ChannelText(ChannelAt(h, 2, percent))
        + ChannelText(ChannelAt(h, 4, percent))
  }

  /** One channel: the two characters from `i`, parsed and moved by `percent`. */
  function ChannelAt(h: string, i: nat, percent: int): (r: Num)
    ensures r.Finite? ==> 0 <= r.n <= 255
  {
    AdjustChannel(ParseInt16(Substring(h, i, i + 2)), percent)
  }

  /** Six hex digits, the form the colour options of the settings panel use after '#'. */
  predicate IsHex6(h: string)
  {
    |h| == 6 && forall i | 0 <= i < 6 :: IsHexDigit(h[i])
  }

  function PairValue(h: string, i: nat): nat
    requires i + 1 < |h| && IsHexDigit(h[i]) && IsHexDigit(h[i + 1])
  {
    HexDigitValue(h[i]).value * 16 + HexDigitValue(h[i + 1]).value
  }

  lemma ParsePair(h: string, i: nat)
    requires i + 1 < |h| && IsHexDigit(h[i]) && IsHexDigit(h[i + 1])
    ensures ParseInt16(h[i..i + 2]) == Finite(PairValue(h, i))
  {
    var s := h[i..i + 2];
    assert s[0] == h[i] && s[1] == h[i + 1];
    assert PairValue(s, 0) == PairValue(h, i);
    ParseTwoDigits(s);
  }

  /** `parseInt` of exactly two hex digits is their value. */
  lemma ParseTwoDigits(s: string)
    requires |s| == 2 && IsHexDigit(s[0]) && IsHexDigit(s[1])
    ensures ParseInt16(s) == Finite(PairValue(s, 0))
  {
    var d0, d1 := HexDigitValue(s[0]).value, HexDigitValue(s[1]).value;
    assert !IsSpace(s[0]);
    assert TrimStart(s) == s;
    assert s[0] != '-' && s[0] != '+' && s[1] != 'x' && s[1] != 'X';
    assert StripHexPrefix(s) == s;
    assert HexRun(s[1..]) == [d1] + HexRun(s[1..][1..]);
    assert HexRun(s[1..][1..]) == [];
    assert HexRun(s) == [d0, d1];
    assert HexValue([d0, d1]) == HexValue([d0]) * 16 + d1;
    assert HexValue([d0]) == HexValue([]) * 16 + d0;
    assert ParseDigits(s) == Finite(PairValue(s, 0));
    assert ParseSigned(s) == ParseDigits(s);
  }

  /** On '#' and six hex digits each channel is read from its pair of digits and moved by
      `percent`, clamped to 0..255, and written back as two lower-case hex digits. */
  lemma AdjustColorOnHex(h: string, percent: int)
    requires IsHex6(h)
    ensures AdjustColor("#" + h, percent)
         == "#" + Hex2(AdjustChannel(Finite(PairValue(h, 0)), percent).n)
                + Hex2(AdjustChannel(Finite(PairValue(h, 2)), percent).n)
                + Hex2(AdjustChannel(Finite(PairValue(h, 4)), percent).n)
    ensures |AdjustColor("#" + h, percent)| == 7
  {
    assert ("#" + h)[0] == '#' && ("#" + h)[1..] == h;
    assert RemoveFirstHash("#" + h) == h;
    assert IsHexDigit(h[0]) && IsHexDigit(h[1]) && IsHexDigit(h[2]);
    assert IsHexDigit(h[3]) && IsHexDigit(h[4]) && IsHexDigit(h[5]);
    ChannelOnHex(h, 0, percent);
    ChannelOnHex(h, 2, percent);
    ChannelOnHex(h, 4, percent);
  }

  lemma ChannelOnHex(h: string, i: nat, percent: int)
    requires i + 1 < |h| && IsHexDigit(h[i]) && IsHexDigit(h[i + 1])
    ensures ChannelAt(h, i, percent) == AdjustChannel(Finite(PairValue(h, i)), percent)
  {
    assert Substring(h, i, i + 2) == h[i..i + 2];
    ParsePair(h, i);
  }

  /** The two digits of a written byte are hex digits of its high and low nibble. */
  lemma Hex2Digits(n: nat)
    requires n < 256
    ensures HexDigitValue(Hex2(n)[0]) == Some(n / 16)
    ensures HexDigitValue(Hex2(n)[1]) == Some(n % 16)
  {
  }

  /** Reading back two written digits gives the byte: the partner of `Hex2`. */
  lemma Hex2RoundTrip(n: nat)
    requires n < 256
    ensures IsHexDigit(Hex2(n)[0]) && IsHexDigit(Hex2(n)[1])
    ensures PairValue(Hex2(n), 0) == n
    ensures ParseInt16(Hex2(n)) == Finite(n)
  {
    Hex2Pair(n);
    ParseTwoDigits(Hex2(n));
  }

  lemma Hex2Pair(n: nat)
    requires n < 256
    ensures IsHexDigit(Hex2(n)[0]) && IsHexDigit(Hex2(n)[1])
    ensures PairValue(Hex2(n), 0) == n
  {
    Hex2Digits(n);
    assert PairValue(Hex2(n), 0) == (n / 16) * 16 + n % 16;
  }

  lemma DigitOfHexDigit(c: char)
    requires IsHexDigit(c)
    ensures DigitChar(HexDigitValue(c).value) == LowerChar(c)
  {
  }

  lemma Hex2OfPair(h: string, i: nat)
    requires i + 1 < |h| && IsHexDigit(h[i]) && IsHexDigit(h[i + 1])
    ensures PairValue(h, i) < 256
    ensures Hex2(PairValue(h, i)) == [LowerChar(h[i]), LowerChar(h[i + 1])]
  {
    var v := PairValue(h, i);
    assert v / 16 == HexDigitValue(h[i]).value;
    assert v % 16 == HexDigitValue(h[i + 1]).value;
    DigitOfHexDigit(h[i]);
    DigitOfHexDigit(h[i + 1]);
  }

  /** Moving by 0 only lower-cases the digits. */
  lemma AdjustColorByZero(h: string)
    requires IsHex6(h)
    ensures AdjustColor("#" + h, 0) == "#" + ToLower(h)
  {
    AdjustColorOnHex(h, 0);
    ZeroChannels(h);
  }

  lemma ZeroChannels(h: string)
    requires IsHex6(h)
    ensures "#" + Hex2(AdjustChannel(Finite(PairValue(h, 0)), 0).n)
                + Hex2(AdjustChannel(Finite(PairValue(h, 2)), 0).n)
                + Hex2(AdjustChannel(Finite(PairValue(h, 4)), 0).n)
            == "#" + ToLower(h)
  {
    assert IsHexDigit(h[0]) && IsHexDigit(h[1]) && IsHexDigit(h[2]);
    assert IsHexDigit(h[3]) && IsHexDigit(h[4]) && IsHexDigit(h[5]);
    ZeroChannel(h, 0);
    ZeroChannel(h, 2);
    ZeroChannel(h, 4);
    LowerSix(h);
  }

  lemma ZeroChannel(h: string, i: nat)
    requires i + 1 < |h| && IsHexDigit(h[i]) && IsHexDigit(h[i + 1])
    ensures Hex2(AdjustChannel(Finite(PairValue(h, i)), 0).n) == [LowerChar(h[i]), LowerChar(h[i + 1])]
  {
    Hex2OfPair(h, i);
    assert AdjustChannel(Finite(PairValue(h, i)), 0) == Finite(PairValue(h, i));
  }

  lemma LowerSix(h: string)
    requires |h| == 6
    ensures ToLower(h) == [LowerChar(h[0]), LowerChar(h[1])] + [LowerChar(h[2]), LowerChar(h[3])]
                          + [LowerChar(h[4]), LowerChar(h[5])]
  {
    var l := ToLower(h);
    assert l[0] == LowerChar(h[0]) && l[1] == LowerChar(h[1]) && l[2] == LowerChar(h[2]);
    assert l[3] == LowerChar(h[3]) && l[4] == LowerChar(h[4]) && l[5] == LowerChar(h[5]);
  }

  /** Three written bytes are again six hex digits, and their pairs read back the bytes. */
  lemma ThreeBytesRoundTrip(r: nat, g: nat, b: nat)
    requires r < 256 && g < 256 && b < 256
    ensures var t := Hex2(r) + Hex2(g) + Hex2(b);
      && IsHex6(t) && PairValue(t, 0) == r && PairValue(t, 2) == g && PairValue(t, 4) == b
      && "#" + Hex2(r) + Hex2(g) + Hex2(b) == "#" + t
  {
    var t := Hex2(r) + Hex2(g) + Hex2(b);
    Hex2Digits(r);
    Hex2Digits(g);
    Hex2Digits(b);
    assert t[0] == Hex2(r)[0] && t[1] == Hex2(r)[1];
    assert t[2] == Hex2(g)[0] && t[3] == Hex2(g)[1];
    assert t[4] == Hex2(b)[0] && t[5] == Hex2(b)[1];
    assert forall i | 0 <= i < 6 :: IsHexDigit(t[i]);
  }

  /** Adjusting an adjusted colour reads back exactly the clamped channels the first
      adjustment wrote. */
  lemma AdjustColorTwice(h: string, p: int, q: int)
    requires IsHex6(h)
    ensures var once := AdjustColor("#" + h, p);
      IsHex6(once[1..])
      && AdjustColor(once, q)
         == "#" + Hex2(AdjustChannel(AdjustChannel(Finite(PairValue(h, 0)), p), q).n)
                + Hex2(AdjustChannel(AdjustChannel(Finite(PairValue(h, 2)), p), q).n)
                + Hex2(AdjustChannel(AdjustChannel(Finite(PairValue(h, 4)), p), q).n)
  {
    AdjustColorOnHex(h, p);
    var r := AdjustChannel(Finite(PairValue(h, 0)), p).n;
    var g := AdjustChannel(Finite(PairValue(h, 2)), p).n;
    var b := AdjustChannel(Finite(PairValue(h, 4)), p).n;
    var t := Hex2(r) + Hex2(g) + Hex2(b);
    ThreeBytesRoundTrip(r, g, b);
    assert AdjustColor("#" + h, p) == "#" + t;
    assert ("#" + t)[1..] == t;
    AdjustColorOnHex(t, q);
  }

  // ---------------------------------------------------------------------------------------
  // chatbotState

  const Moods: seq<string> := ["challenging", "reflective", "drill"]

  /** `updateMoodDisplay`'s validation: a mood outside the three names becomes
      "challenging". */
  function ValidMood(m: string): (r: string)
    ensures r in Moods
    ensures m in Moods ==> r == m
    ensures m !in Moods ==> r == "challenging"
  {
    if m in Moods then m else "challenging"
  }

  datatype Role = System | UserRole | Assistant

  /** One entry of the OpenAI `messages` array. */
  datatype Entry = Entry(role: Role, content: string)

  /** A chat-completion request: the system message written for `intensity`, then
      `messages`. The prompt is kept as its intensity so that its text is only spelled
      out where it is read, by `RequestMessages`. */
  datatype Request = Request(intensity: string, messages: seq<Entry>)

  /** The `messages` array the request sends. */
  function RequestMessages(r: Request): (m: seq<Entry>)
    ensures |m| == |r.messages| + 1
    ensures m[0] == Entry(System, ChatServer.CreateSystemPrompt(r.intensity))
    ensures m[1..] == r.messages
  {
    [Entry(System, ChatServer.CreateSystemPrompt(r.intensity))] + r.messages
  }

  /** One entry of the displayed chat. */
  datatype ChatMessage = ChatMessage(text: string, isUser: bool, mood: string, timestamp: int)

  datatype ClientSettings = ClientSettings(name: string, primaryColor: string, showTimestamps: bool,
                                           darkMode: bool, intensity: string, apiKey: string)

  /** `defaultSettings`; the key is the one the environment supplied, or "". */
  function DefaultClientSettings(envApiKey: string): (s: ClientSettings)
    ensures s.intensity == "challenging" && s.darkMode && !s.showTimestamps
    ensures s.apiKey == envApiKey
  {
    ClientSettings("Goggins Bot", "#1a1a1a", false, true, "challenging", envApiKey)
  }

  const WelcomeText: string := "What's up? Ready to put in the work today? I'm here to push you beyond your limits. Remember: It's not about motivation, it's about dedication and discipline."

  /** What the OpenAI request produced: a completion, a non-OK status, or a thrown error
      (network failure, malformed body). */
  datatype ApiOutcome = ApiReply(content: string) | ApiStatus(status: int) | ApiThrew

  predicate ApiSucceeds(apiKey: string, outcome: ApiOutcome)
  {
    apiKey != "" && outcome.ApiReply?
  }

  /** The text `getOpenAIResponse` resolves to: the trimmed completion, or the fixed
      fallback on any failure. */
  function ClientReply(apiKey: string, outcome: ApiOutcome): string
  {
    if ApiSucceeds(apiKey, outcome) then Trim(outcome.content) else ChatServer.FallbackReply
  }

  /** The server's outcome for what the client saw: a completion stays one; a non-OK
      status and a thrown error are both failures. */
  function AsServerOutcome(outcome: ApiOutcome): ChatServer.CompletionOutcome
  {
    if outcome.ApiReply? then ChatServer.Completed(outcome.content) else ChatServer.CompletionFailed
  }

  /** The client answers exactly as the server's `getOpenAIResponse` does: the trimmed
      completion when a key is set and the call succeeds, the same fallback text otherwise. */
  lemma ClientReplyMatchesServer(apiKey: string, outcome: ApiOutcome)
    ensures ClientReply(apiKey, outcome)
            == ChatServer.GetOpenAIResponse(apiKey, AsServerOutcome(outcome))
    ensures ApiSucceeds(apiKey, outcome) ==> ClientReply(apiKey, outcome) == Trim(outcome.content)
    ensures !ApiSucceeds(apiKey, outcome) ==> ClientReply(apiKey, outcome) == ChatServer.FallbackReply
  {
  }

  const HistoryLimit := 20

  /** `conversation.slice(-20)` once it is longer than 20: the last
      min(20, |c|) entries, so exactly 20 of them once the history is longer. */
  function Window(c: seq<Entry>): (w: seq<Entry>)
    ensures |w| == if |c| > HistoryLimit then HistoryLimit else |c|
    ensures w == c[|c| - |w|..]
  {
    if |c| > HistoryLimit then c[|c| - HistoryLimit..] else c
  }

  /** user, assistant, user, assistant, ...: an even position holds a user entry. */
  predicate Alternating(c: seq<Entry>)
  {
    && |c| % 2 == 0
    && forall i | 0 <= i < |c| :: c[i].role == RoleAt(i)
  }

  /** The role an alternating history has at position `i`. */
  function RoleAt(i: nat): Role
  {
    if i % 2 == 0 then UserRole else Assistant
  }

  function Exchange(message: string, reply: string): seq<Entry>
  {
    [Entry(UserRole, message), Entry(Assistant, reply)]
  }

  /** Appending an exchange to an alternating history keeps it alternating. */
  lemma AppendExchangeAlternates(c: seq<Entry>, message: string, reply: string)
    requires Alternating(c)
    ensures Alternating(c + Exchange(message, reply))
  {
    var d := c + Exchange(message, reply);
    forall i | 0 <= i < |d| ensures d[i].role == RoleAt(i) {
      if i >= |c| {
        assert d[i] == Exchange(message, reply)[i - |c|];
      }
    }
  }

  /** Dropping the oldest exchange keeps a history alternating. */
  lemma DropExchangeAlternates(d: seq<Entry>)
    requires Alternating(d) && |d| >= 2
    ensures Alternating(d[2..])
  {
    var w := d[2..];
    forall i | 0 <= i < |w| ensures w[i].role == RoleAt(i) {
      assert w[i] == d[i + 2];
      assert RoleAt(i + 2) == RoleAt(i);
    }
  }

  /** Appending an exchange and cutting to the last 20 keeps the history at most 20 long,
      alternating and user-first, and ends it with the exchange. */
  lemma WindowKeepsAlternation(c: seq<Entry>, message: string, reply: string)
    requires Alternating(c) && |c| <= HistoryLimit
    ensures var w := Window(c + Exchange(message, reply));
      && |w| <= HistoryLimit
      && Alternating(w)
      && w[|w| - 2..] == Exchange(message, reply)
  {
    var d := c + Exchange(message, reply);
    AppendExchangeAlternates(c, message, reply);
    var w := Window(d);
    if |d| > HistoryLimit {
      assert w == d[2..];
      DropExchangeAlternates(d);
    }
    assert w[|w| - 2..] == d[|d| - 2..];
  }

  /** The `/clear` command, in any letter case. */
  predicate IsClearCommand(text: string)
  {
    ToLower(text) == "/clear"
  }

  /** What `sendMessage` did with the input. */
  datatype SendAction = Ignored | Cleared | Sent(request: Option<Request>)

  class ChatbotState {
    const envApiKey: string
    /** The greeting `clearChatHistory` leaves behind; always `WelcomeText`. */
    const welcomeText: string
    var mood: string
    var messages: seq<ChatMessage>
    var settings: ClientSettings
    var conversation: seq<Entry>

    /** The mood is one of the three names, and the OpenAI history is an alternating run
        of at most 20 entries. */
    ghost predicate Valid()
      reads this
    {
      mood in Moods && Alternating(conversation) && |conversation| <= HistoryLimit
    }

    constructor(envApiKey: string)
      ensures Valid() && this.envApiKey == envApiKey && welcomeText == WelcomeText
      ensures mood == "challenging" && messages == [] && conversation == []
      ensures settings == DefaultClientSettings(envApiKey)
    {
      this.envApiKey := envApiKey;
      welcomeText := WelcomeText;
      mood := "challenging";
      messages := [];
      settings := DefaultClientSettings(envApiKey);
      conversation := [];
    }

    /** `getOpenAIResponse`: without a key nothing is requested. Otherwise the request
        holds the system prompt of the current intensity, the stored history and the new
        user message; only a successful reply extends the history, by the pair, cut to
        its last 20 entries. Any failure resolves to the fallback text. */
    method GetOpenAIResponse(message: string, outcome: ApiOutcome)
      returns (reply: string, request: Option<Request>)
      requires Valid()
      modifies this`conversation
      ensures Valid()
      ensures reply == ClientReply(settings.apiKey, outcome)
      ensures settings.apiKey == "" ==> request == None
      ensures settings.apiKey != "" ==>
        request == Some(Request(settings.intensity, old(conversation) + [Entry(UserRole, message)]))
      ensures conversation == if ApiSucceeds(settings.apiKey, outcome)
                              then Window(old(conversation) + Exchange(message, reply))
                              else old(conversation)
    {
      if settings.apiKey == "" {
        return ChatServer.FallbackReply, None;
      }
      request := Some(Request(settings.intensity, conversation + [Entry(UserRole, message)]));
      if !outcome.ApiReply? {
        return ChatServer.FallbackReply, request;
      }
      reply := Trim(outcome.content);
      PushExchange(message, reply);
    }

    /** The history update of a successful reply: both entries are pushed, then the
        history is cut to its last 20 entries. */
    method PushExchange(message: string, reply: string)
      requires Valid()
      modifies this`conversation
      ensures Valid()
      ensures conversation == Window(old(conversation) + Exchange(message, reply))
    {
      ghost var before := conversation;
      WindowKeepsAlternation(before, message, reply);
      conversation := conversation + [Entry(UserRole, message)];
      conversation := conversation + [Entry(Assistant, reply)];
      assert conversation == before + Exchange(message, reply);
      if |conversation| > HistoryLimit {
        conversation := conversation[|conversation| - HistoryLimit..];
      }
      assert conversation == Window(before + Exchange(message, reply));
    }

    /** `addMessage`: the message is appended with the current mood. */
    method AddMessage(text: string, isUser: bool, now: int)
      modifies this`messages
      ensures messages == old(messages) + [ChatMessage(text, isUser, mood, now)]
    {
      messages := messages + [ChatMessage(text, isUser, mood, now)];
    }

    /** `updateMoodDisplay`: the validated mood is stored. */
    method UpdateMoodDisplay(m: string)
      modifies this`mood
      ensures mood == ValidMood(m)
    {
      if !(m in Moods) {
        mood := "challenging";
      } else {
        mood := m;
      }
    }

    /** `clearChatHistory`: only the welcome message is left, the history is empty and
        the mood is "challenging". */
    method ClearChatHistory(now: int)
      requires Valid()
      modifies this`messages, this`conversation, this`mood
      ensures Valid()
      ensures messages == [ChatMessage(welcomeText, false, "challenging", now)]
      ensures conversation == [] && mood == "challenging"
    {
      messages := [];
      conversation := [];
      messages := messages + [ChatMessage(welcomeText, false, "challenging", now)];
      mood := "challenging";
      UpdateMoodDisplay("challenging");
    }

    /** `sendMessage`: blank input is ignored; "/clear" in any case clears the history;
        anything else is shown, answered and the answer shown, both with the mood of the
        moment. */
    method SendMessage(input: string, now: int, replyTime: int, outcome: ApiOutcome)
      returns (action: SendAction)
      requires Valid()
      modifies this`messages, this`conversation, this`mood
      ensures Valid()
      ensures Trim(input) == "" ==>
        action == Ignored && messages == old(messages) && conversation == old(conversation)
        && mood == old(mood)
      ensures Trim(input) != "" && IsClearCommand(Trim(input)) ==>
        action == Cleared && messages == [ChatMessage(welcomeText, false, "challenging", now)]
        && conversation == [] && mood == "challenging"
      ensures Trim(input) != "" && !IsClearCommand(Trim(input)) ==>
        var text := Trim(input);
        var reply := ClientReply(settings.apiKey, outcome);
        && action.Sent?
        && messages == old(messages) + [ChatMessage(text, true, old(mood), now),
                                        ChatMessage(reply, false, old(mood), replyTime)]
        && mood == old(mood)
        && conversation == if ApiSucceeds(settings.apiKey, outcome)
                           then Window(old(conversation) + Exchange(text, reply))
                           else old(conversation)
    {
      var message := Trim(input);
      if message == "" {
        return Ignored;
      }
      action := SendCommand(message, now, replyTime, outcome);
    }

    /** `sendMessage` past the blank check: "/clear" clears, any other text is sent. */
    method SendCommand(message: string, now: int, replyTime: int, outcome: ApiOutcome)
      returns (action: SendAction)
      requires Valid()
      modifies this`messages, this`conversation, this`mood
      ensures Valid()
      ensures IsClearCommand(message) ==>
        action == Cleared && messages == [ChatMessage(welcomeText, false, "challenging", now)]
        && conversation == [] && mood == "challenging"
      ensures !IsClearCommand(message) ==>
        var reply := ClientReply(settings.apiKey, outcome);
        && action.Sent?
        && messages == old(messages) + [ChatMessage(message, true, old(mood), now),
                                        ChatMessage(reply, false, old(mood), replyTime)]
        && mood == old(mood)
        && conversation == if ApiSucceeds(settings.apiKey, outcome)
                           then Window(old(conversation) + Exchange(message, reply))
                           else old(conversation)
    {
      if IsClearCommand(message) {
        ClearChatHistory(now);
        return Cleared;
      }
      var request := SendText(message, now, replyTime, outcome);
      action := Sent(request);
    }

    /** The sending half of `sendMessage`: the user's text is shown, the reply fetched
        and shown, both with the mood of the moment. */
    method SendText(message: string, now: int, replyTime: int, outcome: ApiOutcome)
      returns (request: Option<Request>)
      requires Valid()
      modifies this`messages, this`conversation
      ensures Valid()
      ensures var reply := ClientReply(settings.apiKey, outcome);
        && messages == old(messages) + [ChatMessage(message, true, mood, now),
                                        ChatMessage(reply, false, mood, replyTime)]
        && conversation == if ApiSucceeds(settings.apiKey, outcome)
                           then Window(old(conversation) + Exchange(message, reply))
                           else old(conversation)
    {
      AddMessage(message, true, now);
      var reply;
      reply, request := GetOpenAIResponse(message, outcome);
      AddMessage(reply, false, replyTime);
    }

    /** `saveSettingsChanges`: the form's name, toggles and intensity are stored, the
        colour only when an option is active; applying them shows the intensity's mood. */
    method SaveSettingsChanges(name: string, showTimestamps: bool, darkMode: bool,
                               intensity: string, activeColor: Option<string>)
      requires Valid()
      modifies this`settings, this`mood
      ensures Valid()
      ensures settings == old(settings).(name := name, showTimestamps := showTimestamps,
                                         darkMode := darkMode, intensity := intensity,
                                         primaryColor := activeColor.GetOr(old(settings).primaryColor))
      ensures mood == ValidMood(intensity)
    {
      settings := settings.(name := name, showTimestamps := showTimestamps, darkMode := darkMode,
                            intensity := intensity);
      if activeColor.Some? {
        settings := settings.(primaryColor := activeColor.value);
      }
      UpdateMoodDisplay(settings.intensity);
    }

    /** `resetSettingsToDefault`: the defaults come back, the mood with them. */
    method ResetSettingsToDefault()
      requires Valid()
      modifies this`settings, this`mood
      ensures Valid()
      ensures settings == DefaultClientSettings(envApiKey) && mood == "challenging"
    {
      settings := DefaultClientSettings(envApiKey);
      UpdateMoodDisplay(settings.intensity);
    }
  }

  /** A fresh client after one successful exchange: the history is that exchange. */
  method FirstExchange(envApiKey: string, a: string, x: string) returns (state: ChatbotState)
    requires envApiKey != "" && Trim(a) != "" && !IsClearCommand(Trim(a))
    ensures fresh(state) && state.Valid() && state.settings.apiKey == envApiKey
    ensures state.conversation == Exchange(Trim(a), Trim(x))
  {
    state := new ChatbotState(envApiKey);
    var first := state.SendMessage(a, 0, 1, ApiReply(x));
    assert [] + Exchange(Trim(a), Trim(x)) == Exchange(Trim(a), Trim(x));
  }

  /** One more successful exchange on a short history appends that exchange. */
  method NextExchange(state: ChatbotState, b: string, y: string)
    requires state.Valid() && state.settings.apiKey != ""
    requires |state.conversation| + 2 <= HistoryLimit
    requires Trim(b) != "" && !IsClearCommand(Trim(b))
    modifies state
    ensures state.conversation == old(state.conversation) + Exchange(Trim(b), Trim(y))
  {
    var sent := state.SendMessage(b, 2, 3, ApiReply(y));
  }

  /** Two successful exchanges in a row leave both pairs at the end of the history, in
      order: the stored history is the conversation as it happened. */
  method TwoExchanges(envApiKey: string, a: string, b: string, x: string, y: string)
    returns (history: seq<Entry>)
    requires envApiKey != "" && Trim(a) != "" && Trim(b) != ""
    requires !IsClearCommand(Trim(a)) && !IsClearCommand(Trim(b))
    ensures history == Exchange(Trim(a), Trim(x)) + Exchange(Trim(b), Trim(y))
  {
    var state := FirstExchange(envApiKey, a, x);
    NextExchange(state, b, y);
    history := state.conversation;
  }
}
