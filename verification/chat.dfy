/**
 * The language-model assistant: per-conversation chat histories capped at 20
 * entries, the 15-entry context window sent with each request, the answer
 * returned for each kind of reply, the relationship tier of an NPC persona,
 * and the quest variation merged from a JSON reply. The network reply is an
 * input (`CallOutcome`), and so is the JSON parser.
 */
module AiIntegration {
  import opened Wrappers
  import opened Text
  import opened Ledger

  datatype Provider = OpenAI | Anthropic | Other

  datatype Role = UserRole | AssistantRole

  /** One `{ role, content }` history entry. */
  datatype ChatEntry = ChatEntry(role: Role, content: string)

  /** What the provider call produced: a reply text (possibly empty), or a thrown error with its message. */
  datatype CallOutcome = Reply(text: string) | Failure(message: string)

  const HistoryCap: nat := 20
  const ContextSize: nat := 15

  const NoKeyAnswer := "I'm sorry, but the AI chat feature requires an API key. Please configure it in the AI Settings."
  const NotConfiguredAnswer := "AI provider not configured properly."
  const TroubleAnswer := "I'm having trouble responding right now. Please try again."

  function ErrorAnswer(message: string): string {
    "I encountered an error: " + message + ". Please check your API configuration."
  }

  /** The last `n` elements of `s` (all of it when it is shorter). */
  function Last<T>(s: seq<T>, n: nat): (r: seq<T>)
    ensures |r| == if |s| <= n then |s| else n
    ensures s == s[..|s| - |r|] + r
  {
    if |s| <= n then s else s[|s| - n..]
  }

  /**
   * `addToHistory` on one list: append, then drop the front entry when the list
   * has grown beyond 20.
   */
  function Pushed(h: seq<ChatEntry>, e: ChatEntry): (r: seq<ChatEntry>)
    ensures |r| >= 1 && r[|r| - 1] == e
    ensures |h| < HistoryCap ==> r == h + [e]
    ensures |h| >= HistoryCap ==> r == h[1..] + [e]
    ensures |h| <= HistoryCap ==> |r| <= HistoryCap
  {
    var grown := h + [e];
    if |grown| > HistoryCap then grown[1..] else grown
  }

  /** Pushing the entries of `es` one by one, in order. */
  function PushedAll(h: seq<ChatEntry>, es: seq<ChatEntry>): seq<ChatEntry>
    decreases |es|
  {
    if es == [] then h else Pushed(PushedAll(h, es[..|es| - 1]), es[|es| - 1])
  }

  /** A bounded history is always the last 20 entries of everything ever pushed onto it. */
  lemma {:induction false} PushedAllKeepsLast(h: seq<ChatEntry>, es: seq<ChatEntry>)
    requires |h| <= HistoryCap
    ensures PushedAll(h, es) == Last(h + es, HistoryCap)
    decreases |es|
  {
    if es != [] {
      var front := es[..|es| - 1];
      var e := es[|es| - 1];
      PushedAllKeepsLast(h, front);
      assert h + es == (h + front) + [e];
      var p := Last(h + front, HistoryCap);
      if |h + front| < HistoryCap {
        assert p == h + front;
      } else {
        assert |p| == HistoryCap;
        assert p[1..] + [e] == ((h + front) + [e])[|h + es| - HistoryCap..];
      }
    }
  }

  /** `history.slice(-15)`: the context sent along with a new message. */
  function Window(h: seq<ChatEntry>): (r: seq<ChatEntry>)
    ensures |r| <= ContextSize
    ensures r == Last(h, ContextSize)
  {
    if |h| <= ContextSize then h else h[|h| - ContextSize..]
  }

  /** The context window of a capped history is the last 15 entries of everything pushed. */
  lemma WindowOfHistory(h: seq<ChatEntry>, es: seq<ChatEntry>)
    requires |h| <= HistoryCap
    ensures Window(PushedAll(h, es)) == Last(h + es, ContextSize)
  {
    PushedAllKeepsLast(h, es);
  }

  /** `npcId || 'game'`. */
  function ChatId(npcId: string): string {
    if npcId == "" then "game" else npcId
  }

  /** The list `getChatHistory` returns: the stored one, or a new empty one. */
  function HistoryOf(m: map<string, seq<ChatEntry>>, id: string): seq<ChatEntry> {
    if id in m then m[id] else []
  }

  /** Every stored history holds at most 20 entries. */
  predicate Capped(m: map<string, seq<ChatEntry>>) {
    forall id :: id in m ==> |m[id]| <= HistoryCap
  }

  /** The text `generateResponse` returns. */
  function Answer(apiKey: string, provider: Provider, reply: CallOutcome): (r: string)
    ensures apiKey == "" ==> r == NoKeyAnswer
    ensures apiKey != "" && provider == Other ==> r == NotConfiguredAnswer
  {
    if apiKey == "" then NoKeyAnswer
    else if provider == Other then NotConfiguredAnswer
    else match reply
      case Reply(text) => if text != "" then text else TroubleAnswer
      case Failure(message) => ErrorAnswer(message)
  }

  /** The reply is kept exactly when a configured provider returned a non-empty text. */
  predicate KeepsReply(apiKey: string, provider: Provider, reply: CallOutcome) {
    apiKey != "" && provider != Other && reply.Reply? && reply.text != ""
  }

  /**
   * The chat histories after `generateResponse(message, npcId)`: without a key
   * nothing is touched; otherwise the user message is recorded under the chat
   * id before the call, and the reply after it when it is kept.
   */
  function AfterExchange(apiKey: string, provider: Provider, m: map<string, seq<ChatEntry>>,
                         npcId: string, message: string, reply: CallOutcome): (r: map<string, seq<ChatEntry>>)
    ensures apiKey == "" ==> r == m
    ensures apiKey != "" ==> r.Keys == m.Keys + {ChatId(npcId)}
    ensures forall id :: id in m && id != ChatId(npcId) ==> id in r && r[id] == m[id]
    ensures Capped(m) ==> Capped(r)
  {
    if apiKey == "" then m
    else
      var id := ChatId(npcId);
      var h := Pushed(HistoryOf(m, id), ChatEntry(UserRole, message));
      m[id := if KeepsReply(apiKey, provider, reply) then Pushed(h, ChatEntry(AssistantRole, reply.text)) else h]
  }

  /**
   * With a key the conversation ends with the user message, followed by the
   * reply exactly when it is kept; a kept reply is also the answer returned.
   */
  lemma ExchangeRecords(apiKey: string, provider: Provider, m: map<string, seq<ChatEntry>>,
                        npcId: string, message: string, reply: CallOutcome)
    requires apiKey != ""
    ensures var h := AfterExchange(apiKey, provider, m, npcId, message, reply)[ChatId(npcId)];
      && (KeepsReply(apiKey, provider, reply) ==>
            |h| >= 2 && h[|h| - 2] == ChatEntry(UserRole, message) && h[|h| - 1] == ChatEntry(AssistantRole, reply.text)
            && Answer(apiKey, provider, reply) == reply.text)
      && (!KeepsReply(apiKey, provider, reply) ==>
            |h| >= 1 && h[|h| - 1] == ChatEntry(UserRole, message))
  {
    var id := ChatId(npcId);
    var u := Pushed(HistoryOf(m, id), ChatEntry(UserRole, message));
    if KeepsReply(apiKey, provider, reply) {
      var h := Pushed(u, ChatEntry(AssistantRole, reply.text));
      if |u| < HistoryCap {
        assert h == u + [ChatEntry(AssistantRole, reply.text)];
      } else {
        assert h == u[1..] + [ChatEntry(AssistantRole, reply.text)];
      }
    }
  }

  /** The relationship tiers of `buildSystemPrompt`. */
  datatype Tier = VeryFriendly | Friendly | Neutral | Unfriendly | Hostile

  function RelationshipTier(relationship: int): (t: Tier)
    ensures t == VeryFriendly <==> relationship > 50
    ensures t == Friendly <==> 20 < relationship <= 50
    ensures t == Neutral <==> -20 < relationship <= 20
    ensures t == Unfriendly <==> -50 < relationship <= -20
    ensures t == Hostile <==> relationship <= -50
  {
    if relationship > 50 then VeryFriendly
    else if relationship > 20 then Friendly
    else if relationship > -20 then Neutral
    else if relationship > -50 then Unfriendly
    else Hostile
  }

  /** Tiers ordered from hostile (0) to very friendly (4). */
  function Warmth(t: Tier): nat {
    match t
    case Hostile => 0
    case Unfriendly => 1
    case Neutral => 2
    case Friendly => 3
    case VeryFriendly => 4
  }

  /** A better relationship never gives a colder tier. */
  lemma TierMonotone(a: int, b: int)
    requires a <= b
    ensures Warmth(RelationshipTier(a)) <= Warmth(RelationshipTier(b))
  {
  }

  /**
   * `npcs[id]?.relationship || npc.relationship || 0`: the live value, unless it
   * is missing or 0, in which case the NPC's base value.
   */
  function LiveRelationship(live: Option<int>, base: int): (r: int)
    ensures live.Some? && live.value != 0 ==> r == live.value
    ensures live.None? || live.value == 0 ==> r == base
    ensures r == 0 ==> base == 0 && (live.None? || live.value == 0)
  {
    if live.Some? && live.value != 0 then live.value else base
  }

  /** A relationship that has fallen to exactly 0 is described with the base value: Old Greg stays friendly. */
  lemma ZeroLiveFallsBack()
    ensures LiveRelationship(Some(0), 50) == 50 && RelationshipTier(LiveRelationship(Some(0), 50)) == Friendly
    ensures RelationshipTier(0) == Neutral
  {
  }

  /** Which system prompt a conversation gets: the game master's, or an NPC persona with its relationship. */
  datatype Persona = GameMaster | Character(npc: Npc, relationship: int, tier: Tier)

  function PersonaOf(chatId: string, npcs: map<string, int>): (p: Persona)
    ensures p.GameMaster? <==> chatId == "" || chatId == "game" || FindNpc(chatId).None?
    ensures p.Character? ==> (p.npc.id == chatId && p.tier == RelationshipTier(p.relationship)
      && p.relationship == LiveRelationship(if chatId in npcs then Some(npcs[chatId]) else None, p.npc.relationship))
  {
    if chatId == "" || chatId == "game" then GameMaster
    else match FindNpc(chatId)
      case None => GameMaster
      case Some(npc) =>
        var r := LiveRelationship(if chatId in npcs then Some(npcs[chatId]) else None, npc.relationship);
        Character(npc, r, RelationshipTier(r))
  }

  /** The fields a JSON reply may override in `{ ...baseQuest, ...variation }`. */
  datatype QuestPatch = QuestPatch(
    id: Option<string>, title: Option<string>, description: Option<string>, giver: Option<string>,
    kind: Option<string>, target: Option<string>, targetCount: Option<int>, currentCount: Option<int>,
    reward: Option<Reward>, status: Option<string>)

  const EmptyPatch := QuestPatch(None, None, None, None, None, None, None, None, None, None)

  /** `{ ...baseQuest, ...variation }`: each field the patch carries wins. */
  function Merge(base: Quest, p: QuestPatch): Quest {
    Quest(p.id.GetOr(base.id), p.title.GetOr(base.title), p.description.GetOr(base.description),
          p.giver.GetOr(base.giver), p.kind.GetOr(base.kind), p.target.GetOr(base.target),
          p.targetCount.GetOr(base.targetCount), p.currentCount.GetOr(base.currentCount),
          p.reward.GetOr(base.reward), p.status.GetOr(base.status))
  }

  /** An empty patch changes nothing, and applying a patch twice is applying it once. */
  lemma MergeLaws(base: Quest, p: QuestPatch)
    ensures Merge(base, EmptyPatch) == base
    ensures Merge(Merge(base, p), p) == Merge(base, p)
  {
  }

  /** A field the patch leaves out keeps its base value: reward and type are not checked, only copied or replaced. */
  lemma MergeKeepsUnpatched(base: Quest, p: QuestPatch)
    ensures p.reward.None? ==> Merge(base, p).reward == base.reward
    ensures p.kind.None? ==> Merge(base, p).kind == base.kind
    ensures p.reward.Some? ==> Merge(base, p).reward == p.reward.value
  {
  }

  /** The first index of `c` in `s`. */
  function FirstIndex(s: string, c: char): (r: Option<nat>)
    ensures r.Some? ==> r.value < |s| && s[r.value] == c && c !in s[..r.value]
    ensures r.None? ==> c !in s
  {
    if s == [] then None
    else if s[0] == c then Some(0)
    else match FirstIndex(s[1..], c)
      case None => None
      case Some(k) => assert s[..k + 1] == [s[0]] + s[1..][..k]; Some(k + 1)
  }

  /** The last index of `c` in `s`. */
  function LastIndex(s: string, c: char): (r: Option<nat>)
    ensures r.Some? ==> r.value < |s| && s[r.value] == c && c !in s[r.value + 1..]
    ensures r.None? ==> c !in s
    decreases |s|
  {
    if s == [] then None
    else if s[|s| - 1] == c then Some(|s| - 1)
    else
      var r := LastIndex(s[..|s| - 1], c);
      assert s == s[..|s| - 1] + [s[|s| - 1]];
      r
  }

  /**
   * `response.match(/\{[\s\S]*\}/)`: from the first `{` to the last `}`, when
   * some `}` follows some `{`.
   */
  function ExtractJson(s: string): (r: Option<string>)
    ensures r.Some? ==> (|r.value| >= 2 && r.value[0] == '{' && r.value[|r.value| - 1] == '}'
      && exists i: nat :: OccursAt(s, r.value, i) && '{' !in s[..i] && '}' !in s[i + |r.value|..])
    ensures r.None? <==> !exists i, j :: 0 <= i < j < |s| && s[i] == '{' && s[j] == '}'
  {
    match (FirstIndex(s, '{'), LastIndex(s, '}'))
    case (Some(i), Some(j)) =>
      if i < j then
        assert OccursAt(s, s[i..j + 1], i);
        Some(s[i..j + 1])
      else
        None
    case _ => None
  }

  /** A reply with a JSON object inside prose yields the object. */
  lemma ExtractJsonExample()
    ensures ExtractJson("a{b}c") == Some("{b}")
  {
    assert FirstIndex("a{b}c", '{') == Some(1);
    assert LastIndex("a{b}c", '}') == Some(3);
    assert "a{b}c"[1..4] == "{b}";
  }

  /**
   * `generateQuestVariation(base)`: the merged quest when a configured provider
   * replied with text holding a JSON object that parses; the base quest otherwise.
   */
  function QuestVariation(apiKey: string, provider: Provider, base: Quest, reply: CallOutcome,
                          parse: string -> Option<QuestPatch>): (r: Quest)
    ensures apiKey == "" || provider == Other || reply.Failure? ==> r == base
    ensures reply.Reply? && ExtractJson(reply.text).None? ==> r == base
    ensures apiKey != "" && provider != Other && reply.Reply? && ExtractJson(reply.text).Some?
      ==> r == match parse(ExtractJson(reply.text).value) case None => base case Some(p) => Merge(base, p)
  {
    if apiKey == "" || provider == Other then base
    else match reply
      case Failure(_) => base
      case Reply(text) =>
        if text == "" then base
        else match ExtractJson(text)
          case None => base
          case Some(json) =>
            match parse(json)
            case None => base
            case Some(p) => Merge(base, p)
  }

  /** The `AIIntegration` object: its configuration and its chat histories. */
  class Assistant {
    var provider: Provider
    var apiKey: string
    var chatHistory: map<string, seq<ChatEntry>>

    ghost predicate Valid()
      reads this
    {
      Capped(chatHistory)
    }

    /** The initial configuration: OpenAI, no key, no conversations. */
    constructor ()
      ensures provider == OpenAI && apiKey == "" && chatHistory == map[]
      ensures Valid()
    {
      provider := OpenAI;
      apiKey := "";
      chatHistory := map[];
    }

    /** `saveAIConfig`: a new provider and key; the conversations stay. */
    method SaveConfig(newProvider: Provider, newKey: string)
      modifies this
      ensures provider == newProvider && apiKey == newKey
      ensures chatHistory == old(chatHistory)
    {
      provider := newProvider;
      apiKey := newKey;
    }

    /** `getChatHistory`: the stored list, created empty on first use. */
    method GetChatHistory(npcId: string) returns (h: seq<ChatEntry>)
      requires Valid()
      modifies this
      ensures h == HistoryOf(old(chatHistory), npcId)
      ensures chatHistory == old(chatHistory)[npcId := h]
      ensures provider == old(provider) && apiKey == old(apiKey)
      ensures Valid()
    {
      if npcId !in chatHistory {
        chatHistory := chatHistory[npcId := []];
      }
      h := chatHistory[npcId];
    }

    /** `addToHistory`: push onto the conversation, dropping its oldest entry past 20. */
    method AddToHistory(npcId: string, role: Role, content: string)
      requires Valid()
      modifies this
      ensures chatHistory == old(chatHistory)[npcId := Pushed(HistoryOf(old(chatHistory), npcId), ChatEntry(role, content))]
      ensures provider == old(provider) && apiKey == old(apiKey)
      ensures Valid()
    {
      var history := GetChatHistory(npcId);
      history := history + [ChatEntry(role, content)];
      if |history| > HistoryCap {
        history := history[1..];
      }
      chatHistory := chatHistory[npcId := history];
    }

    /**
     * `generateResponse(message, npcId)` with the provider's reply given. Returns
     * the answer and the conversation part of the request (`sent`, empty when no
     * request is made): the last 15 stored entries and the new message.
     */
    method GenerateResponse(message: string, npcId: string, reply: CallOutcome) returns (answer: string, sent: seq<ChatEntry>)
      requires Valid()
      modifies this
      ensures answer == Answer(apiKey, provider, reply)
      ensures chatHistory == AfterExchange(apiKey, provider, old(chatHistory), npcId, message, reply)
      ensures apiKey != "" ==> sent == Window(HistoryOf(old(chatHistory), ChatId(npcId))) + [ChatEntry(UserRole, message)]
      ensures apiKey == "" ==> sent == []
      ensures |sent| <= ContextSize + 1
      ensures provider == old(provider) && apiKey == old(apiKey)
      ensures Valid()
    {
      if apiKey == "" {
        return NoKeyAnswer, [];
      }
      var chatId := ChatId(npcId);
      sent := Ask(chatId, message);
      if provider == Other {
        return NotConfiguredAnswer, sent;
      }
      match reply
      case Failure(m) =>
        answer := ErrorAnswer(m);
      case Reply(text) =>
        if text != "" {
          AddToHistory(chatId, AssistantRole, text);
          answer := text;
        } else {
          answer := TroubleAnswer;
        }
    }

    /** The request side of `generateResponse`: the context window is taken, then the user message recorded. */
    method Ask(chatId: string, message: string) returns (sent: seq<ChatEntry>)
      requires Valid()
      modifies this
      ensures sent == Window(HistoryOf(old(chatHistory), chatId)) + [ChatEntry(UserRole, message)]
      ensures chatHistory == old(chatHistory)[chatId := Pushed(HistoryOf(old(chatHistory), chatId), ChatEntry(UserRole, message))]
      ensures provider == old(provider) && apiKey == old(apiKey)
      ensures Valid()
    {
      var history := GetChatHistory(chatId);
      sent := Window(history) + [ChatEntry(UserRole, message)];
      AddToHistory(chatId, UserRole, message);
    }
  }
}
