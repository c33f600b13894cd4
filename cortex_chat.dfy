/** The chat panel (components/CortexChat.tsx): the message list, the input
    box, the thinking and listening flags, and the identifiers the panel asks
    the app to highlight. The assistant is `CortexService.GenerateResponse`. */
module CortexChat {
  import opened Util
  import opened Numbers
  import opened Types
  import opened CortexService

  const InitId := "init"
  const GreetingSuffix := ", I'm Cortex. I've analyzed your current session. How can I help you with your memories today?"
  const SummarizeOneText := "Summarize this specific memory for me."
  const BatchPrefix := "Summarize these "
  const BatchSuffix := " selected memories for me."

  // ------------------------------------------------------------ greeting

  /** The opening message: "Hello", then a space and the name when there is
      one, then the fixed introduction. */
  function Greeting(userName: string): (r: string)
    ensures |r| == 5 + (if userName == "" then 0 else 1 + |userName|) + |GreetingSuffix|
    ensures r[..5] == "Hello" && r[|r| - |GreetingSuffix|..] == GreetingSuffix
  {
    "Hello" + (if userName != "" then " " + userName else "") + GreetingSuffix
  }

  /** The name in the greeting: what lies between "Hello " and the suffix. */
  lemma GreetingNamesUser(userName: string)
    requires userName != ""
    ensures var g := Greeting(userName);
            |g| == 6 + |userName| + |GreetingSuffix| && g[5] == ' ' && g[6..|g| - |GreetingSuffix|] == userName
  {
    var g := Greeting(userName);
    assert g == "Hello " + userName + GreetingSuffix;
  }

  /** Different names give different greetings, and no name gives one that
      no name does. */
  lemma GreetingInjective(a: string, b: string)
    requires Greeting(a) == Greeting(b)
    ensures a == b
  {
    if a != "" && b != "" {
      GreetingNamesUser(a);
      GreetingNamesUser(b);
    }
  }

  /** The opening message of a fresh panel. */
  function InitMessage(userName: string, now: int): ChatMessage {
    ChatMessage(InitId, Cortex, Greeting(userName), now, None)
  }

  // ------------------------------------------------------------- actions

  /** `activeAction`: one memory or a selection to summarise. */
  datatype Action = Summarize(memoryId: string) | SummarizeBatch(memoryIds: seq<string>)

  function BatchText(n: nat): string {
    BatchPrefix + NatToString(n) + BatchSuffix
  }

  /** The context identifiers and the user text of an action: the one memory
      with a fixed request, or the selection with a request naming its size. */
  function ActionRequest(a: Action): (r: (seq<string>, string))
    ensures a.Summarize? ==> r.0 == [a.memoryId] && r.1 == SummarizeOneText
    ensures a.SummarizeBatch? ==> r.0 == a.memoryIds && r.1 == BatchText(|a.memoryIds|)
  {
    match a
    case Summarize(id) => ([id], SummarizeOneText)
    case SummarizeBatch(ids) => (ids, BatchText(|ids|))
  }

  /** The size of a selection can be read back from its request. */
  lemma BatchTextCount(n: nat)
    ensures var t := BatchText(n);
            |BatchPrefix| <= |t| && t[..|BatchPrefix|] == BatchPrefix && ParseInt(t[|BatchPrefix|..]) == Some(n)
  {
    var t := BatchText(n);
    var rest := NatToString(n) + BatchSuffix;
    assert t == BatchPrefix + rest;
    assert t[..|BatchPrefix|] == BatchPrefix && t[|BatchPrefix|..] == rest;
    ParseIntOfPrefix(n, BatchSuffix);
  }

  /** Only a batch with no identifiers has nothing to ask about. */
  lemma ActionWithoutContext(a: Action)
    ensures |ActionRequest(a).0| == 0 <==> a.SummarizeBatch? && a.memoryIds == []
  {
  }

  // ------------------------------------------------------------- options

  /** `aiTone || 'friendly'`: an absent or empty tone is the friendly one. */
  function ToneOrDefault(aiTone: Option<string>): (r: string)
    ensures r != ""
    ensures aiTone.Some? && aiTone.value != "" ==> r == aiTone.value
    ensures aiTone.None? || aiTone.value == "" ==> ToneInstruction(r) == "Be warm, encouraging, and conversational."
  {
    if aiTone.Some? && aiTone.value != "" then aiTone.value else "friendly"
  }

  /** The default parameter `aiModel = 'gemini-2.5-flash'` of
      `generateResponse`, which applies only when no model is passed. */
  function ModelOrDefault(aiModel: Option<string>): (r: string)
    ensures aiModel.None? ==> r == FlashModel && ThinkingBudget(r).None?
    ensures aiModel.Some? ==> r == aiModel.value
  {
    aiModel.GetOr(FlashModel)
  }

  /** The user's own message: the typed text, sent by the user, stamped
      with the clock reading, which is also its identifier, and carrying no
      related memories. */
  function UserMessage(text: string, now: int): (r: ChatMessage)
    ensures r.sender == User && r.text == text && r.timestamp == now
    ensures ParseInt(r.id) == Some(now)
    ensures r.relatedMemoryIds.None?
  {
    ParseIntOfIntToString(now);
    ChatMessage(IntToString(now), User, text, now, None)
  }

  /** The "Suggested Memories" buttons under an assistant message: its
      related identifiers that name one of the memories, in order. */
  function Suggestions(msg: ChatMessage, memories: seq<Memory>): (r: seq<string>)
    ensures msg.sender == User || msg.relatedMemoryIds.None? ==> r == []
    ensures msg.sender == Cortex && msg.relatedMemoryIds.Some? ==>
              IsSubseq(r, msg.relatedMemoryIds.value)
              && (forall id :: id in r <==> id in msg.relatedMemoryIds.value && HasMemory(memories, id))
              && forall id :: multiset(r)[id] == if HasMemory(memories, id) then multiset(msg.relatedMemoryIds.value)[id] else 0
  {
    if msg.sender == Cortex && msg.relatedMemoryIds.Some? then
      var keep := id => HasMemory(memories, id);
      FilterIsSubseq(msg.relatedMemoryIds.value, keep);
      forall id ensures multiset(Filter(msg.relatedMemoryIds.value, keep))[id] == if keep(id) then multiset(msg.relatedMemoryIds.value)[id] else 0 {
        FilterCount(msg.relatedMemoryIds.value, keep, id);
      }
      Filter(msg.relatedMemoryIds.value, keep)
    else []
  }

  /** After a send, the reply's related identifiers are highlighted when
      there are any; otherwise the highlights stay cleared. */
  function ReplyHighlights(reply: ChatMessage): (r: seq<string>)
    ensures reply.relatedMemoryIds.Some? ==> r == reply.relatedMemoryIds.value
    ensures reply.relatedMemoryIds.None? ==> r == []
  {
    if reply.relatedMemoryIds.Some? && |reply.relatedMemoryIds.value| > 0 then reply.relatedMemoryIds.value else []
  }

  predicate HasMemory(memories: seq<Memory>, id: string) {
    exists k :: 0 <= k < |memories| && memories[k].id == id
  }

  /** A user message never comes out of `generateResponse`'s fallback, which
      carries no identifiers, so a failed reply never highlights anything. */
  lemma FailedReplyHighlightsNothing(env: Env, query: string, ms: seq<Memory>, contextIds: Option<seq<string>>,
                                     apiKey: Option<string>, userName: string, tone: string, model: string, now: int)
    requires GenerateResponse(env, query, ms, contextIds, apiKey, userName, tone, model, now).Done?
    requires env.gateway(GetClient(env, apiKey).value,
                         ChatRequest(env, query, ms, contextIds, userName, tone, model)).Failed?
    ensures GenerateResponse(env, query, ms, contextIds, apiKey, userName, tone, model, now).value.relatedMemoryIds.None?
  {
  }

  // ---------------------------------------------------------------- panel

  class ChatPanel {
    var messages: seq<ChatMessage>
    var input: string
    var isThinking: bool
    var isExpanded: bool
    var isListening: bool
    var isTTSEnabled: bool
    /** The identifiers last handed to `onHighlightMemories`. */
    var highlighted: seq<string>
    /** The `userName` property. */
    var userName: string
    const memories: seq<Memory>
    const apiKey: Option<string>
    const aiTone: Option<string>
    const aiModel: Option<string>
    /** Whether the browser offers speech recognition. */
    const speechSupported: bool

    /** The transcript always opens with the panel's own first message. */
    ghost predicate Valid()
      reads this
    {
      |messages| > 0 && messages[0].id == InitId && messages[0].sender == Cortex
    }

    constructor (memories: seq<Memory>, apiKey: Option<string>, userName: string, aiTone: Option<string>,
                 aiModel: Option<string>, speechSupported: bool, now: int)
      ensures Valid()
      ensures messages == [InitMessage(userName, now)] && input == "" && !isThinking && isExpanded
      ensures !isListening && isTTSEnabled && highlighted == [] && this.userName == userName
      ensures this.memories == memories && this.apiKey == apiKey && this.aiTone == aiTone
      ensures this.aiModel == aiModel && this.speechSupported == speechSupported
    {
      this.messages := [InitMessage(userName, now)];
      this.input := "";
      this.isThinking := false;
      this.isExpanded := true;
      this.isListening := false;
      this.isTTSEnabled := true;
      this.highlighted := [];
      this.userName := userName;
      this.memories := memories;
      this.apiKey := apiKey;
      this.aiTone := aiTone;
      this.aiModel := aiModel;
      this.speechSupported := speechSupported;
    }

    /** A new `userName`: the greeting is rewritten while it is the only
        message, and left as it is once the conversation has started. */
    method UserNameChanged(name: string)
      requires Valid()
      modifies this`userName, this`messages
      ensures Valid()
      ensures userName == name
      ensures old(|messages|) == 1 ==> messages == [old(messages[0]).(text := Greeting(name))]
      ensures old(|messages|) != 1 ==> messages == old(messages)
    {
      userName := name;
      if |messages| == 1 && messages[0].id == InitId {
        messages := [messages[0].(text := Greeting(name))];
      }
    }

    /** The assistant's reply to `text` for the user `name`, asked at time
        `answered`. */
    function Respond(env: Env, name: string, text: string, contextIds: Option<seq<string>>, answered: int): Outcome<ChatMessage> {
      GenerateResponse(env, text, memories, contextIds, apiKey, name, ToneOrDefault(aiTone),
                       ModelOrDefault(aiModel), answered)
    }

    /** A request goes into the transcript and the panel starts thinking. */
    method Post(msg: ChatMessage, ids: seq<string>)
      requires Valid()
      modifies this`messages, this`isThinking, this`highlighted
      ensures Valid()
      ensures messages == old(messages) + [msg] && isThinking && highlighted == ids
    {
      messages := messages + [msg];
      isThinking := true;
      highlighted := ids;
    }

    /** The reply goes into the transcript and the panel stops thinking. */
    method Receive(reply: ChatMessage)
      requires Valid()
      modifies this`messages, this`isThinking
      ensures Valid()
      ensures messages == old(messages) + [reply] && !isThinking
    {
      isThinking := false;
      messages := messages + [reply];
    }

    /** The action effect: with the panel open and an action pending, and
        not while a reply is awaited, the request goes into the transcript,
        its memories are highlighted, and the reply follows. When the
        service throws, the panel stays thinking and the action is not
        cleared. `cleared` tells whether `onClearAction` was called. */
    method RunAction(env: Env, action: Option<Action>, isOpen: bool, sent: int, answered: int)
      returns (cleared: bool)
      requires Valid()
      modifies this`messages, this`isThinking, this`highlighted
      ensures Valid()
      ensures !isOpen || action.None? || old(isThinking) || |ActionRequest(action.value).0| == 0 ==>
                !cleared && messages == old(messages) && isThinking == old(isThinking)
                && highlighted == old(highlighted)
      ensures isOpen && action.Some? && !old(isThinking) && |ActionRequest(action.value).0| > 0 ==>
                var (ids, text) := ActionRequest(action.value);
                var reply := Respond(env, userName, text, Some(ids), answered);
                && highlighted == ids
                && cleared == reply.Done? && isThinking == reply.Threw?
                && messages == old(messages) + [UserMessage(text, sent)] + (if reply.Done? then [reply.value] else [])
    {
      cleared := false;
      if !isOpen || action.None? || isThinking {
        return;
      }
      var (ids, text) := ActionRequest(action.value);
      if |ids| == 0 {
        return;
      }
      Post(UserMessage(text, sent), ids);
      var reply := Respond(env, userName, text, Some(ids), answered);
      if reply.Threw? {
        return;
      }
      Receive(reply.value);
      cleared := true;
    }

    /** `handleSend`: blank input is ignored; otherwise the input, as
        typed, becomes a user message, the input is cleared and the
        highlights reset, and the reply is appended; the reply's related
        identifiers are highlighted when there are any. A send while a reply
        is awaited is not refused here: only the send button is disabled. */
    method HandleSend(env: Env, sent: int, answered: int)
      requires Valid()
      modifies this`messages, this`input, this`isThinking, this`highlighted
      ensures Valid()
      ensures IsBlank(old(input)) ==>
                messages == old(messages) && input == old(input) && isThinking == old(isThinking)
                && highlighted == old(highlighted)
      ensures !IsBlank(old(input)) ==>
                var reply := Respond(env, userName, old(input), None, answered);
                && input == "" && isThinking == reply.Threw?
                && messages == old(messages) + [UserMessage(old(input), sent)] + (if reply.Done? then [reply.value] else [])
                && highlighted == (if reply.Done? then ReplyHighlights(reply.value) else [])
    {
      if !IsBlank(input) {
        SendInput(env, sent, answered);
      }
    }

    /** The part of `handleSend` after its guard. */
    method SendInput(env: Env, sent: int, answered: int)
      requires Valid()
      modifies this`messages, this`input, this`isThinking, this`highlighted
      ensures Valid()
      ensures var reply := Respond(env, userName, old(input), None, answered);
              && input == "" && isThinking == reply.Threw?
              && messages == old(messages) + [UserMessage(old(input), sent)] + (if reply.Done? then [reply.value] else [])
              && highlighted == (if reply.Done? then ReplyHighlights(reply.value) else [])
    {
      var text := input;
      Post(UserMessage(text, sent), []);
      input := "";
      var reply := Respond(env, userName, text, None, answered);
      if reply.Done? {
        Receive(reply.value);
        highlighted := ReplyHighlights(reply.value);
      }
    }

    /** A recognised phrase is appended to the input after a space, or
        becomes the input when it is empty; listening stops. */
    method Transcribed(transcript: string)
      modifies this`input, this`isListening
      ensures old(input) != "" ==> input == old(input) + " " + transcript
      ensures old(input) == "" ==> input == transcript
      ensures !isListening
    {
      input := if input != "" then input + " " + transcript else transcript;
      isListening := false;
    }

    /** An error or the end of recognition stops listening. */
    method RecognitionEnded()
      modifies this`isListening
      ensures !isListening
    {
      isListening := false;
    }

    /** `toggleListening`: without recognition nothing changes (the user is
        alerted); otherwise listening starts or stops. */
    method ToggleListening()
      modifies this`isListening
      ensures isListening == (if speechSupported then !old(isListening) else old(isListening))
    {
      if !speechSupported {
        return;
      }
      isListening := !isListening;
    }

    /** `toggleTTS`: later replies are spoken or not. */
    method ToggleTTS()
      modifies this`isTTSEnabled
      ensures isTTSEnabled == !old(isTTSEnabled)
    {
      isTTSEnabled := !isTTSEnabled;
    }

    /** The input box. */
    method EditInput(text: string)
      modifies this`input
      ensures input == text
    {
      input := text;
    }

    /** A "Suggested Memories" button highlights that one memory. */
    method SelectSuggestion(id: string)
      modifies this`highlighted
      ensures highlighted == [id]
    {
      highlighted := [id];
    }

    /** The minimise button, and the header, which expands only a minimised
        panel. */
    method Minimize()
      modifies this`isExpanded
      ensures !isExpanded
    {
      isExpanded := false;
    }

    method HeaderClick()
      modifies this`isExpanded
      ensures isExpanded
    {
      if !isExpanded {
        isExpanded := true;
      }
    }

    /** `handleClose`: the highlights are cleared before the app closes the
        panel. */
    method HandleClose()
      modifies this`highlighted
      ensures highlighted == []
    {
      highlighted := [];
    }
  }
}
