/** The response generator of src/services/ai.ts: the per-personality
    configuration table, the response formatters, the classification of
    failures into fixed user-facing replies, and the process-wide map from
    personality id to chat session. The generative-model SDK is outside the
    model: a chat session is an object that records the history it was
    started with, and what `sendMessage` returns is an outcome supplied by
    the caller. */
module Ai {
  import opened Wrappers
  import opened Strings

  // ---------------------------------------------------------------------------
  // Fixed replies
  // ---------------------------------------------------------------------------

  const ApiKeyMissing := "API key not configured. Please add your Gemini API key to the .env file."
  const ConfigNotFound := "Personality configuration not found."
  const InvalidApiKey := "Invalid API key. Please check your Gemini API key configuration."
  const NetworkFailure := "Network error. Please check your internet connection and try again."
  const RateLimited := "Rate limit exceeded. Please wait a moment before trying again."
  const ContentRefused := "I apologize, but I cannot provide a response to that message."
  const Unavailable := "I apologize, but I am unable to respond at the moment. Please try again later."

  /** The replies a failure inside the `try` block can produce. */
  const FailureReplies: set<string> :=
    {InvalidApiKey, NetworkFailure, RateLimited, ContentRefused, Unavailable}

  /** Every fixed string generateResponse can return. */
  const FixedReplies: set<string> := {ApiKeyMissing, ConfigNotFound} + FailureReplies

  /** The model's canned first turn in every new chat. */
  const Acknowledgement := "I understand and will respond accordingly."

  // ---------------------------------------------------------------------------
  // Configuration table
  // ---------------------------------------------------------------------------

  /** A regular expression `/^(a|b|...)/`: the alternatives are tried in
      order, only at the start of the text. */
  datatype EchoPattern = EchoPattern(alternatives: seq<string>)

  /** A personality's configuration. The sampling parameters are passed
      through to the SDK untouched and are left out. */
  datatype Config = Config(prompt: string, formatResponse: Option<EchoPattern>)

  const EinsteinPrompt :=
    "You are Albert Einstein. Respond as if you are the famous physicist, incorporating these elements:\n"
    + "    - Use your knowledge of physics, relativity, and scientific concepts\n"
    + "    - Occasionally reference your famous quotes and theories\n"
    + "    - Show curiosity and wonder about scientific phenomena\n"
    + "    - Keep responses concise and engaging\n"
    + "    - Sometimes include \"mein Freund\" or similar German phrases\n"
    + "    - Express humility despite your genius\n"
    + "    Keep responses under 150 words."
  const ShakespearePrompt :=
    "You are William Shakespeare. Respond as the legendary playwright and poet with these characteristics:\n"
    + "    - Use Early Modern English occasionally, but remain understandable\n"
    + "    - Reference your plays and sonnets when relevant\n"
    + "    - Include poetic elements and wordplay\n"
    + "    - Keep responses concise and engaging\n"
    + "    - Sometimes speak in iambic pentameter\n"
    + "    Keep responses under 150 words."
  const CuriePrompt :=
    "You are Marie Curie. Respond as the pioneering scientist with these elements:\n"
    + "    - Draw from your knowledge of radioactivity and chemistry\n"
    + "    - Reference your discoveries and research\n"
    + "    - Show passion for scientific inquiry\n"
    + "    - Occasionally include French phrases\n"
    + "    - Emphasize the importance of persistence in research\n"
    + "    Keep responses under 150 words."

  const EinsteinEcho := EchoPattern(["Einstein:", "Albert Einstein:"])
  const ShakespeareEcho := EchoPattern(["Shakespeare:", "William Shakespeare:"])
  const CurieEcho := EchoPattern(["Marie Curie:", "Madame Curie:"])

  /** `personalityConfigs`, keyed by personality id. */
  const Configs: map<string, Config> := map[
    "1" := Config(EinsteinPrompt, Some(EinsteinEcho)),
    "2" := Config(ShakespearePrompt, Some(ShakespeareEcho)),
    "3" := Config(CuriePrompt, Some(CurieEcho))
  ]

  // ---------------------------------------------------------------------------
  // Response formatting
  // ---------------------------------------------------------------------------

  /** `text.replace(/^(a|b|...)/, '')`: removes the first alternative that
      `text` starts with, once, or nothing when none matches. */
  function StripEcho(alternatives: seq<string>, text: string): (r: string)
    ensures |r| <= |text| && r == text[|text| - |r|..]
  {
    if alternatives == [] then text
    else if alternatives[0] <= text then text[|alternatives[0]|..]
    else StripEcho(alternatives[1..], text)
  }

  /** The alternative removed is the first one the text starts with. */
  lemma {:induction false} StripEchoFirstMatch(alternatives: seq<string>, text: string, k: nat)
    requires k < |alternatives| && alternatives[k] <= text
    requires forall m :: 0 <= m < k ==> !(alternatives[m] <= text)
    ensures StripEcho(alternatives, text) == text[|alternatives[k]|..]
  {
    if k > 0 {
      assert !(alternatives[0] <= text);
      StripEchoFirstMatch(alternatives[1..], text, k - 1);
    }
  }

  /** A text that starts with no alternative is left as it is. */
  lemma {:induction false} StripEchoNoMatch(alternatives: seq<string>, text: string)
    requires forall m :: 0 <= m < |alternatives| ==> !(alternatives[m] <= text)
    ensures StripEcho(alternatives, text) == text
  {
    if alternatives != [] {
      assert !(alternatives[0] <= text);
      StripEchoNoMatch(alternatives[1..], text);
    }
  }

  /** `config.formatResponse ? config.formatResponse(text) : text`, where
      every formatter of the table is `replace(pattern, '').trim()`. */
  function ApplyFormat(formatter: Option<EchoPattern>, text: string): (r: string)
    ensures formatter.None? ==> r == text
    ensures formatter.Some? ==> |r| <= |text| && Trim(r) == r
  {
    if formatter.None? then text
    else
      var stripped := StripEcho(formatter.value.alternatives, text);
      TrimIdempotent(stripped);
      Trim(stripped)
  }

  /** The formatted reply for a configured personality. */
  function FormatReply(personalityId: string, text: string): (r: string)
    requires personalityId in Configs
    ensures |r| <= |text|
  {
    ApplyFormat(Configs[personalityId].formatResponse, text)
  }

  /** The two names of a configured pattern already differ in their first
      three characters, so neither starts the other. */
  lemma EchoNamesDiverge(personalityId: string) returns (i: nat)
    requires personalityId in Configs
    ensures Configs[personalityId].formatResponse.Some?
    ensures var alts := Configs[personalityId].formatResponse.value.alternatives;
      |alts| == 2 && i < |alts[0]| && i < |alts[1]| && alts[0][i] != alts[1][i]
  {
    if personalityId == "1" {
      i := 0;
    } else if personalityId == "2" {
      i := 0;
    } else {
      i := 2;
    }
  }

  /** Whichever of its personality's names a reply starts with, that one name
      is removed and the remainder trimmed. */
  lemma EchoStripped(personalityId: string, name: string, rest: string)
    requires personalityId in Configs
    requires Configs[personalityId].formatResponse.Some?
    requires name in Configs[personalityId].formatResponse.value.alternatives
    ensures FormatReply(personalityId, name + rest) == Trim(rest)
  {
    var alts := Configs[personalityId].formatResponse.value.alternatives;
    var text := name + rest;
    var i := EchoNamesDiverge(personalityId);
    assert text[..|name|] == name && text[|name|..] == rest;
    if name == alts[0] {
      StripEchoFirstMatch(alts, text, 0);
    } else {
      assert text[i] == alts[1][i];
      StripEchoFirstMatch(alts, text, 1);
    }
  }

  /** At most one echo is removed: a doubled name keeps its second copy. */
  lemma EchoStrippedOnce(personalityId: string, name: string, rest: string)
    requires personalityId in Configs
    requires Configs[personalityId].formatResponse.Some?
    requires name in Configs[personalityId].formatResponse.value.alternatives
    ensures FormatReply(personalityId, name + name + rest) == Trim(name + rest)
  {
    assert name + name + rest == name + (name + rest);
    EchoStripped(personalityId, name, name + rest);
  }

  /** A reply that does not start with any name of the pattern is only trimmed. */
  lemma NoEchoOnlyTrimmed(personalityId: string, text: string)
    requires personalityId in Configs
    requires Configs[personalityId].formatResponse.Some?
    requires forall name :: name in Configs[personalityId].formatResponse.value.alternatives ==> !(name <= text)
    ensures FormatReply(personalityId, text) == Trim(text)
  {
    var alts := Configs[personalityId].formatResponse.value.alternatives;
    forall m | 0 <= m < |alts| ensures !(alts[m] <= text) {
      assert alts[m] in alts;
    }
    StripEchoNoMatch(alts, text);
  }

  /** The worked example: Einstein's echoed name and the space after it go. */
  lemma EinsteinExample(body: string)
    requires body == "Relativity is fascinating, mein Freund."
    ensures FormatReply("1", "Einstein:" + ([' '] + body)) == body
  {
    EchoStripped("1", "Einstein:", [' '] + body);
    ExampleBodyTrimmed(body);
  }

  /** The example reply body is already trimmed. */
  lemma ExampleBodyTrimmed(body: string)
    requires body == "Relativity is fascinating, mein Freund."
    ensures Trim([' '] + body) == body
  {
    TrimLeadingSpace(body);
  }

  // ---------------------------------------------------------------------------
  // Failure classification
  // ---------------------------------------------------------------------------

  /** What the `catch` receives: an `Error` with its message, or any other value. */
  datatype Thrown = ErrorObject(message: string) | OtherValue

  /** The `catch` block: the first substring test that matches decides the
      reply; anything that is not an `Error`, or matches none, gets the
      generic apology. */
  function ErrorReply(e: Thrown): (r: string)
    ensures r in FailureReplies
    ensures r == InvalidApiKey <==> e.ErrorObject? && Contains(e.message, "API key")
    ensures r == NetworkFailure <==>
      e.ErrorObject? && !Contains(e.message, "API key") && Contains(e.message, "network")
    ensures r == RateLimited <==>
      e.ErrorObject? && !Contains(e.message, "API key") && !Contains(e.message, "network")
      && Contains(e.message, "rate limit")
    ensures r == ContentRefused <==>
      e.ErrorObject? && !Contains(e.message, "API key") && !Contains(e.message, "network")
      && !Contains(e.message, "rate limit") && Contains(e.message, "content filtered")
    ensures r == Unavailable <==>
      e.OtherValue? ||
      (!Contains(e.message, "API key") && !Contains(e.message, "network")
       && !Contains(e.message, "rate limit") && !Contains(e.message, "content filtered"))
  {
    match e
    case OtherValue => Unavailable
    case ErrorObject(m) =>
      if Contains(m, "API key") then InvalidApiKey
      else if Contains(m, "network") then NetworkFailure
      else if Contains(m, "rate limit") then RateLimited
      else if Contains(m, "content filtered") then ContentRefused
      else Unavailable
  }

  /** A rate-limit failure whose message names no key and no network. */
  lemma RateLimitExample(m: string)
    requires m == "429: rate limit reached"
    ensures ErrorReply(ErrorObject(m)) == RateLimited
  {
    RateLimitNoKeyNoNetwork(m);
    RateLimitNamed(m);
  }

  /** The example message names neither the API key nor the network. */
  lemma RateLimitNoKeyNoNetwork(m: string)
    requires m == "429: rate limit reached"
    ensures !Contains(m, "API key") && !Contains(m, "network")
  {
    MissingCharNotContained(m, "API key", 'A');
    MissingCharNotContained(m, "network", 'w');
  }

  /** The example message names the rate limit. */
  lemma RateLimitNamed(m: string)
    requires m == "429: rate limit reached"
    ensures Contains(m, "rate limit")
  {
    OccursContained(m, "rate limit", 5);
  }

  // ---------------------------------------------------------------------------
  // generateResponse, as a function of its inputs
  // ---------------------------------------------------------------------------

  /** What the SDK's `sendMessage` does for this call: resolve with the
      model's text, or throw. */
  datatype SendOutcome = Responded(text: string) | Threw(error: Thrown)

  /** The string generateResponse resolves to. `hasKey` says whether the
      API key is configured. */
  function Reply(hasKey: bool, personalityId: string, outcome: SendOutcome): (r: string)
    ensures !hasKey ==> r == ApiKeyMissing
    ensures hasKey && personalityId !in Configs ==> r == ConfigNotFound
    ensures hasKey && personalityId in Configs && outcome.Responded? ==>
      r == FormatReply(personalityId, outcome.text)
    ensures hasKey && personalityId in Configs && outcome.Threw? ==> r == ErrorReply(outcome.error)
  {
    if !hasKey then ApiKeyMissing
    else if personalityId !in Configs then ConfigNotFound
    else
      match outcome
      case Responded(text) => FormatReply(personalityId, text)
      case Threw(e) => ErrorReply(e)
  }

  /** The two guards come before the SDK: the outcome cannot change the reply. */
  lemma GuardsIgnoreOutcome(hasKey: bool, personalityId: string, o1: SendOutcome, o2: SendOutcome)
    requires !hasKey || personalityId !in Configs
    ensures Reply(hasKey, personalityId, o1) == Reply(hasKey, personalityId, o2)
    ensures Reply(hasKey, personalityId, o1) in {ApiKeyMissing, ConfigNotFound}
  {
  }

  // ---------------------------------------------------------------------------
  // The personalityConfigs lookup as JavaScript evaluates it
  // ---------------------------------------------------------------------------

  /** The property names every plain object inherits from Object.prototype;
      each of them holds a function or an object, so reading it is truthy. */
  const ObjectPrototypeNames: set<string> := {
    "constructor", "__defineGetter__", "__defineSetter__", "hasOwnProperty",
    "__lookupGetter__", "__lookupSetter__", "isPrototypeOf",
    "propertyIsEnumerable", "toString", "valueOf", "__proto__", "toLocaleString"
  }

  /** `!personalityConfigs[personalityId]` as written: false for an own key of
      the object literal and also for every inherited property name. */
  predicate LookupMissesAsWritten(personalityId: string)
    ensures LookupMissesAsWritten(personalityId) ==> personalityId !in Configs
    ensures personalityId in ObjectPrototypeNames ==> !LookupMissesAsWritten(personalityId)
  {
    personalityId !in Configs && personalityId !in ObjectPrototypeNames
  }

  /** The not-found guard as written lets an unconfigured id through. */
  lemma PrototypeNamePassesGuard()
    ensures "constructor" !in Configs && !LookupMissesAsWritten("constructor")
  {
  }

  // ---------------------------------------------------------------------------
  // Chat sessions and the session map
  // ---------------------------------------------------------------------------

  datatype Role = User | Model

  /** One turn of a chat history. */
  datatype Turn = Turn(role: Role, parts: string)

  /** The history every new chat starts with: the prompt as the user's turn,
      then the model's acknowledgement. */
  function OpeningHistory(prompt: string): (h: seq<Turn>)
    ensures |h| == 2 && h[0] == Turn(User, prompt) && h[1].role == Model
  {
    [Turn(User, prompt), Turn(Model, Acknowledgement)]
  }

  /** A chat returned by the SDK's `startChat`; only the history it was
      started with is modelled. */
  class ChatSession {
    const history: seq<Turn>

    constructor (history: seq<Turn>)
      ensures this.history == history
    {
      this.history := history;
    }
  }

  /** One `chat.sendMessage(text)` call. */
  datatype SentMessage = SentMessage(chat: ChatSession, text: string)

  /** The module-level `chatHistories` map, with the trace of the messages
      sent through its chats. */
  class SessionStore {
    var chats: map<string, ChatSession>
    ghost var sent: seq<SentMessage>

    /** Every stored chat belongs to a configured personality and was started
        with that personality's prompt. */
    ghost predicate Valid()
      reads this`chats
    {
      forall id :: id in chats ==>
        id in Configs && chats[id].history == OpeningHistory(Configs[id].prompt)
    }

    constructor ()
      ensures Valid() && chats == map[] && sent == []
    {
      chats := map[];
      sent := [];
    }

    /** generateResponse(personalityId, userMessage). */
    method GenerateResponse(hasKey: bool, personalityId: string, userMessage: string, outcome: SendOutcome)
      returns (reply: string)
      requires Valid()
      modifies this
      ensures Valid()
      ensures reply == Reply(hasKey, personalityId, outcome)
      // the guards return before the map or the SDK is touched
      ensures !hasKey || personalityId !in Configs ==> chats == old(chats) && sent == old(sent)
      // otherwise the id has a chat afterwards, an existing one is kept, and
      // the message goes to that chat whether or not sending then fails
      ensures hasKey && personalityId in Configs ==>
        && personalityId in chats
        && chats == old(chats)[personalityId := chats[personalityId]]
        && (personalityId in old(chats) ==> chats == old(chats))
        && (personalityId !in old(chats) ==> fresh(chats[personalityId]))
        && sent == old(sent) + [SentMessage(chats[personalityId], userMessage)]
    {
      if !hasKey {
        return ApiKeyMissing;
      }
      if personalityId !in Configs {
        return ConfigNotFound;
      }
      var config := Configs[personalityId];
      var chat: ChatSession;
      if personalityId in chats {
        chat := chats[personalityId];
      } else {
        chat := new ChatSession(OpeningHistory(config.prompt));
        chats := chats[personalityId := chat];
      }
      assert Valid();
      sent := sent + [SentMessage(chat, userMessage)];
      match outcome {
        case Responded(text) =>
          reply := ApplyFormat(config.formatResponse, text);
        case Threw(e) =>
          reply := ErrorReply(e);
      }
      assert reply == Reply(hasKey, personalityId, outcome);
    }

    /** clearChatHistory(personalityId): `chatHistories.delete`. */
    method ClearChatHistory(personalityId: string)
      requires Valid()
      modifies this
      ensures Valid()
      ensures chats == old(chats) - {personalityId}
      ensures sent == old(sent)
    {
      chats := chats - {personalityId};
    }

    /** clearAllChatHistories(): `chatHistories.clear`. */
    method ClearAllChatHistories()
      requires Valid()
      modifies this
      ensures Valid()
      ensures chats == map[]
      ensures sent == old(sent)
    {
      chats := map[];
    }
  }

  /** Two calls for the same configured id: the first creates or finds the
      chat, the second sends into that same chat and adds no key. */
  method SendTwice(store: SessionStore, personalityId: string, first: string, second: string,
                   o1: SendOutcome, o2: SendOutcome)
    returns (r1: string, r2: string)
    requires store.Valid() && personalityId in Configs
    modifies store
    ensures store.Valid()
    ensures r1 == Reply(true, personalityId, o1) && r2 == Reply(true, personalityId, o2)
    ensures store.chats.Keys == old(store.chats.Keys) + {personalityId}
    ensures |store.sent| == |old(store.sent)| + 2
    ensures store.sent[|old(store.sent)|] == SentMessage(store.chats[personalityId], first)
    ensures store.sent[|old(store.sent)| + 1] == SentMessage(store.chats[personalityId], second)
  {
    r1 := store.GenerateResponse(true, personalityId, first, o1);
    ghost var keys := store.chats.Keys;
    ghost var chat := store.chats[personalityId];
    r2 := store.GenerateResponse(true, personalityId, second, o2);
    assert store.chats.Keys == keys;
    assert store.chats[personalityId] == chat;
  }
}
