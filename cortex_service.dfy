/** The assistant service (services/cortexService.ts): the requests it sends
    to the language model and everything it does with the replies. The model
    call, `JSON.parse`, image reading and date formatting are parameters
    bundled in `Env`; prompts are structured values recording which data goes
    into them, not their wording. */
module CortexService {
  import opened Util
  import opened Numbers
  import opened Json
  import opened Types

  // ------------------------------------------------------------ requests

  datatype Tool = GoogleSearch | GoogleMaps

  /** An image file chosen in the browser. */
  datatype ImageFile = ImageFile(name: string, mimeType: string)

  /** The base64 payload of an image, as sent to the model. */
  datatype InlineImage = InlineImage(data: string, mimeType: string)

  /** One existing memory as `findConnections` describes it. */
  datatype LinkEntry = LinkEntry(id: string, snippet: string, tags: seq<string>)

  /** One memory as `generateBriefing` and `summarizeSelection` describe it. */
  datatype BriefEntry = BriefEntry(id: string, kind: MemoryType, content: string, tags: seq<string>)

  /** One memory in the chat's system instruction; `reminder` is the formatted
      reminder time, present when the memory has a non-zero reminder. */
  datatype ChatEntry = ChatEntry(id: string, kind: MemoryType, date: string, tags: seq<string>,
                                 content: string, reminder: Option<string>)

  datatype MemoryContext = NoMemories | Entries(entries: seq<ChatEntry>)

  /** The user turn of a chat request: the question alone, or the question
      preceded by the (id, content) of the memories it is about. */
  datatype Prompt = Plain(query: string) | Scoped(focus: seq<(string, string)>, query: string)

  datatype Request =
    | Analyze(model: string, image: Option<InlineImage>, input: string, tools: seq<Tool>)
    | Summarize(model: string, userName: string, count: nat, block: seq<BriefEntry>)
    | Connect(model: string, newContent: string, newTags: seq<string>, existing: seq<LinkEntry>, jsonOnly: bool)
    | Brief(model: string, userName: string, target: string, bank: seq<BriefEntry>)
    | Chat(model: string, prompt: Prompt, userName: string, tone: string, context: MemoryContext,
           tools: seq<Tool>, thinkingBudget: Option<nat>)

  /** A grounding source; a missing field is the empty string. */
  datatype Site = Site(uri: string, title: string)
  datatype Chunk = Chunk(web: Option<Site>, maps: Option<Site>)

  /** The model's answer: a failed call, or the reply text (empty when the
      reply has none) and the grounding chunks of its first candidate. */
  datatype Reply = Failed | Replied(text: string, chunks: seq<Chunk>)

  /** Everything outside the application's own code. */
  datatype Env = Env(
    envKey: Option<string>,                       // process.env.API_KEY
    clientAccepts: Option<string> -> bool,        // `new GoogleGenAI({apiKey})` returns
    gateway: (Option<string>, Request) -> Reply,  // `ai.models.generateContent`
    parse: string -> Option<Json>,                // `JSON.parse`; None when it throws
    readFile: ImageFile -> Option<InlineImage>,   // `fileToPart`; None when it rejects
    localeString: int -> string,                  // `new Date(t).toLocaleString()`
    parseDate: string -> Option<int>,             // `new Date(s).getTime()`; None for NaN
    localInput: int -> string)                    // the local `YYYY-MM-DDTHH:mm` of a time

  const FlashModel := "gemini-2.5-flash"
  const ThinkingModel := "gemini-3-pro-preview"

  // -------------------------------------------------------------- client

  /** The key the client is built with: the custom key when it is non-blank
      after trimming, otherwise the environment's. */
  function ChooseKey(apiKey: Option<string>, envKey: Option<string>): (r: Option<string>)
    ensures apiKey.Some? && !IsBlank(apiKey.value) ==> r == apiKey
    ensures apiKey.None? || IsBlank(apiKey.value) ==> r == envKey
  {
    if apiKey.Some? && |Trim(apiKey.value)| > 0 then apiKey else envKey
  }

  /** `getClient`: the key in use, or `Threw` when the client refuses it. */
  function GetClient(env: Env, apiKey: Option<string>): (r: Outcome<Option<string>>)
    ensures r.Done? <==> env.clientAccepts(ChooseKey(apiKey, env.envKey))
    ensures r.Done? ==> r.value == ChooseKey(apiKey, env.envKey)
  {
    var key := ChooseKey(apiKey, env.envKey);
    if env.clientAccepts(key) then Done(key) else Threw
  }

  // ------------------------------------------------------------- analysis

  /** The reply with every "```json" and then every "```" removed, trimmed. */
  function Unfenced(text: string): (r: string)
    ensures !Contains(r, "```") && IsTrimmed(r)
  {
    var j := RemoveAll(RemoveAll(text, "```json"), "```");
    RemoveFencesLeavesNone(RemoveAll(text, "```json"));
    TrimLacks(j, "```");
    Trim(j)
  }

  /** The slice of the cleaned text from the first `{` to the last `}`
      inclusive when both occur, else the whole text. JavaScript's `substring`
      swaps its bounds, so when the last `}` precedes the first `{` it is the
      text strictly between them. */
  function BraceSlice(j: string): (r: string)
    ensures var first := IndexOfChar(j, '{');
            var last := LastIndexOfChar(j, '}');
            && (first == -1 || last == -1 ==> r == j)
            && (first != -1 && last != -1 && first < last ==>
                  r == j[first..last + 1] && r[0] == '{' && r[|r| - 1] == '}')
            && (first != -1 && last != -1 && last < first ==> r == j[last + 1..first])
    ensures !Contains(j, "```") ==> !Contains(r, "```")
  {
    var first := IndexOfChar(j, '{');
    var last := LastIndexOfChar(j, '}');
    if first != -1 && last != -1 then
      if first < last then
        (InfixLacks(j, first, last + 1, "```"); j[first..last + 1])
      else
        (InfixLacks(j, last + 1, first, "```"); j[last + 1..first])
    else j
  }

  /** The text `analyzeContent` hands to `JSON.parse`. */
  function Candidate(text: string): (r: string)
    ensures !Contains(r, "```")
  {
    BraceSlice(Unfenced(text))
  }

  /** A reply with no backtick is only trimmed. */
  lemma UnfencedPlain(text: string)
    requires '`' !in text
    ensures Unfenced(text) == Trim(text)
  {
    assert text + "" == text;
    RemoveAllSkips(text, "", "```json");
    RemoveAllSkips(text, "", "```");
  }

  /** A ```json fenced block gives back the text inside the fence, trimmed. */
  lemma UnfencedFence(j: string)
    requires '`' !in j
    ensures Unfenced("```json\n" + j + "\n```") == Trim(j)
  {
    var a := "\n" + j + "\n";
    var s := "```json" + (a + "```");
    assert "```json\n" + j + "\n```" == s;
    assert s[..7] == "```json" && s[7..] == a + "```";
    RemoveAllSkips(a, "```", "```json");
    RemoveAllSkips(a, "```", "```");
    assert "```"[3..] == "";
    assert a + "" == a;
    TrimPadded("\n", j, "\n");
  }

  /** The round trip of the tolerant extraction: an object literal the model
      wraps in a ```json fence is exactly what reaches `JSON.parse`. */
  lemma CandidateOfFencedObject(o: string)
    requires '`' !in o && |o| > 0 && o[0] == '{' && o[|o| - 1] == '}'
    ensures Candidate("```json\n" + o + "\n```") == o
  {
    UnfencedFence(o);
    TrimOfTrimmed(o);
    assert IndexOfChar(o, '{') == 0;
    assert LastIndexOfChar(o, '}') == |o| - 1;
    assert o[0..|o|] == o;
  }

  /** What `analyzeContent` returns when the call or the parse fails. */
  function AnalysisFallback(input: string): (r: Json)
    ensures Prop(r, "analysis") == Found(JStr(input))
    ensures Prop(r, "tags") == Found(JArr([]))
    ensures Prop(r, "reminderISO") == Undefined
  {
    JObj(map["analysis" := JStr(input), "tags" := JArr([])])
  }

  /** The request `analyzeContent` sends: the flash model with Google Search,
      the input, and the image part when one was chosen and could be read. */
  function AnalyzeRequest(env: Env, input: string, image: Option<ImageFile>): Request {
    Analyze(FlashModel, if image.Some? then env.readFile(image.value) else None, input, [GoogleSearch])
  }

  /** `analyzeContent(input, imageFile, apiKey)`: the parsed reply, or the
      fallback; it throws only when the client cannot be built. */
  function AnalyzeContent(env: Env, input: string, image: Option<ImageFile>, apiKey: Option<string>): (r: Outcome<Json>)
    ensures r == Threw <==> GetClient(env, apiKey) == Threw
    ensures r.Done? ==>
              r.value == ReadAnalysis(env.parse, env.gateway(GetClient(env, apiKey).value, AnalyzeRequest(env, input, image)), input)
  {
    match GetClient(env, apiKey)
    case Threw => Threw
    case Done(key) =>
      Done(ReadAnalysis(env.parse, env.gateway(key, AnalyzeRequest(env, input, image)), input))
  }

  /** The reply's text, cleaned and parsed, or the fallback: a failed call
      and an unparseable candidate give the fallback, an empty reply is read
      as "{}", and a candidate that parses is the result. */
  function ReadAnalysis(parse: string -> Option<Json>, reply: Reply, input: string): (r: Json)
    ensures reply.Failed? ==> r == AnalysisFallback(input)
    ensures reply.Replied? && reply.text == "" ==> r == parse("{}").GetOr(AnalysisFallback(input))
    ensures reply.Replied? && reply.text != "" && parse(Candidate(reply.text)).Some? ==>
              r == parse(Candidate(reply.text)).value
    ensures reply.Replied? && reply.text != "" && parse(Candidate(reply.text)).None? ==>
              r == AnalysisFallback(input)
  {
    EmptyReplyIsEmptyObject();
    match reply
    case Failed => AnalysisFallback(input)
    case Replied(text, _) =>
      var parsed := parse(Candidate(if text == "" then "{}" else text));
      if parsed.Some? then parsed.value else AnalysisFallback(input)
  }

  /** "{}" carries no fence and no white space, so cleaning keeps it. */
  lemma BracesUnfenced()
    ensures Unfenced("{}") == "{}"
  {
    var b := "{}";
    RemoveAllAbsent(b, "```json");
    RemoveAllAbsent(b, "```");
    TrimOfTrimmed(b);
  }

  /** An empty reply is read as the empty object "{}", not as a failure. */
  lemma EmptyReplyIsEmptyObject()
    ensures Candidate("{}") == "{}"
  {
    BracesUnfenced();
    BracesSliced();
  }

  /** "{}" opens at 0 and closes at 1, so the slice is the whole text. */
  lemma BracesSliced()
    ensures BraceSlice("{}") == "{}"
  {
    var b := "{}";
    assert IndexOfChar(b, '{') == 0;
    assert LastIndexOfChar(b, '}') == 1;
    assert b[0..2] == b;
  }

  /** With a working client: a candidate that parses is the result, a reply
      whose candidate does not parse and a failed call both give the
      fallback, and an empty reply is read as "{}". A call that reaches the
      model never throws. */
  lemma AnalyzeOutcomes(env: Env, input: string, image: Option<ImageFile>, apiKey: Option<string>)
    requires GetClient(env, apiKey).Done?
    ensures var key := GetClient(env, apiKey).value;
            var reply := env.gateway(key, AnalyzeRequest(env, input, image));
            && AnalyzeContent(env, input, image, apiKey).Done?
            && (reply.Failed? ==> AnalyzeContent(env, input, image, apiKey) == Done(AnalysisFallback(input)))
            && (reply.Replied? && reply.text == "" ==>
                  AnalyzeContent(env, input, image, apiKey)
                    == Done(env.parse("{}").GetOr(AnalysisFallback(input))))
            && (reply.Replied? && reply.text != "" && env.parse(Candidate(reply.text)).Some? ==>
                  AnalyzeContent(env, input, image, apiKey) == Done(env.parse(Candidate(reply.text)).value))
            && (reply.Replied? && reply.text != "" && env.parse(Candidate(reply.text)).None? ==>
                  AnalyzeContent(env, input, image, apiKey) == Done(AnalysisFallback(input)))
  {
    var key := GetClient(env, apiKey).value;
    var reply := env.gateway(key, AnalyzeRequest(env, input, image));
    assert AnalyzeContent(env, input, image, apiKey) == Done(ReadAnalysis(env.parse, reply, input));
  }

  // --------------------------------------------------------- summarising

  function Describe(m: Memory): BriefEntry {
    BriefEntry(m.id, m.kind, m.content, m.tags)
  }

  /** `summarizeSelection`: the reply text, a fixed text for an empty reply and
      another for a failed call. */
  function SummarizeSelection(env: Env, memories: seq<Memory>, apiKey: Option<string>, userName: string): (r: Outcome<string>)
    ensures r == Threw <==> GetClient(env, apiKey) == Threw
    ensures r.Done? ==> r.value != []
    ensures r.Done? ==>
      var reply := env.gateway(GetClient(env, apiKey).value,
                               Summarize(FlashModel, userName, |memories|, MapSeq(Describe, memories)));
      r.value == (if reply.Failed? then "Error generating summary."
                  else if reply.text == "" then "Could not generate summary." else reply.text)
  {
    match GetClient(env, apiKey)
    case Threw => Threw
    case Done(key) =>
      match env.gateway(key, Summarize(FlashModel, userName, |memories|, MapSeq(Describe, memories)))
      case Failed => Done("Error generating summary.")
      case Replied(text, _) => Done(if text == "" then "Could not generate summary." else text)
  }

  // ---------------------------------------------------------- connections

  function LinkEntryOf(m: Memory): LinkEntry {
    LinkEntry(m.id, JsSubstring(m.content, 0, 100), m.tags)
  }

  /** The existing memories `findConnections` shows the model: all but those
      sharing the new memory's id, in order, each cut to 100 characters. */
  function LinkContext(newId: string, existing: seq<Memory>): seq<LinkEntry> {
    MapSeq(LinkEntryOf, Filter(existing, (m: Memory) => m.id != newId))
  }

  /** No entry has the new memory's id, and every other memory has its entry. */
  lemma LinkContextExact(newId: string, existing: seq<Memory>)
    ensures forall k :: 0 <= k < |LinkContext(newId, existing)| ==>
              LinkContext(newId, existing)[k].id != newId && |LinkContext(newId, existing)[k].snippet| <= 100
    ensures forall m :: m in existing && m.id != newId ==> LinkEntryOf(m) in LinkContext(newId, existing)
  {
    var kept := Filter(existing, (m: Memory) => m.id != newId);
    forall m | m in existing && m.id != newId ensures LinkEntryOf(m) in LinkContext(newId, existing) {
      var k :| 0 <= k < |kept| && kept[k] == m;
      assert LinkContext(newId, existing)[k] == LinkEntryOf(m);
    }
  }

  /** A snippet is the first 100 characters of the content, or all of it. */
  lemma SnippetIsPrefix(m: Memory)
    ensures var s := LinkEntryOf(m).snippet;
            s == m.content[..if |m.content| < 100 then |m.content| else 100]
  {
  }

  /** The identifiers in a parsed link reply: `json.relatedIds || []`; reading
      a property of `null` throws, which the caller turns into `[]` too. */
  function RelatedIds(parsed: Option<Json>): (r: seq<string>)
    ensures parsed.None? || parsed.value == JNull ==> r == []
    ensures parsed.Some? && Prop(parsed.value, "relatedIds") == Undefined ==> r == []
  {
    if parsed.None? then []
    else
      var l := Prop(parsed.value, "relatedIds");
      if l == TypeError then [] else Strings(OrElse(l, JArr([])))
  }

  /** A reply `{"relatedIds": ids}` gives `ids`, the empty list included. */
  lemma RelatedIdsOfReply(ids: seq<string>)
    ensures RelatedIds(Some(JObj(map["relatedIds" := StrArray(ids)]))) == ids
  {
    var v := JObj(map["relatedIds" := StrArray(ids)]);
    assert Prop(v, "relatedIds") == Found(StrArray(ids));
    StringsOfStrArray(ids);
  }

  /** The request `findConnections` sends: the new memory's content and tags
      and the link context, asking for JSON. */
  function ConnectRequest(newMemory: Memory, existing: seq<Memory>): Request {
    Connect(FlashModel, newMemory.content, newMemory.tags, LinkContext(newMemory.id, existing), true)
  }

  /** `findConnections(newMemory, existing, apiKey)`: `[]` without asking for
      fewer than three memories; otherwise the call throws exactly when
      building the client does, a failed model call gives `[]` (the `catch`),
      and a reply gives the identifiers read from it, an empty one read as
      "{}". */
  function FindConnections(env: Env, newMemory: Memory, existing: seq<Memory>, apiKey: Option<string>): (r: Outcome<seq<string>>)
    ensures |existing| < 3 ==> r == Done([])
    ensures r == Threw <==> |existing| >= 3 && GetClient(env, apiKey) == Threw
    ensures |existing| >= 3 && GetClient(env, apiKey).Done? ==>
              var reply := env.gateway(GetClient(env, apiKey).value, ConnectRequest(newMemory, existing));
              && (reply.Failed? ==> r == Done([]))
              && (reply.Replied? ==> r == Done(RelatedIds(env.parse(if reply.text == "" then "{}" else reply.text))))
  {
    if |existing| < 3 then Done([])
    else
      match GetClient(env, apiKey)
      case Threw => Threw
      case Done(key) =>
        match env.gateway(key, ConnectRequest(newMemory, existing))
        case Failed => Done([])
        case Replied(text, _) => Done(RelatedIds(env.parse(if text == "" then "{}" else text)))
  }

  /** With three or more memories the model is asked about exactly the link
      context, and a reply `{"relatedIds": [...]}` gives those identifiers. */
  lemma ConnectionsReadReply(env: Env, newMemory: Memory, existing: seq<Memory>, apiKey: Option<string>, ids: seq<string>)
    requires |existing| >= 3 && GetClient(env, apiKey).Done?
    requires var reply := env.gateway(GetClient(env, apiKey).value, ConnectRequest(newMemory, existing));
             reply.Replied? && reply.text != "" &&
             env.parse(reply.text) == Some(JObj(map["relatedIds" := StrArray(ids)]))
    ensures FindConnections(env, newMemory, existing, apiKey) == Done(ids)
  {
    var key := GetClient(env, apiKey).value;
    var text := env.gateway(key, ConnectRequest(newMemory, existing)).text;
    assert text != "";
    RelatedIdsOfReply(ids);
    assert RelatedIds(env.parse(text)) == ids;
  }

  // ------------------------------------------------------------- briefing

  /** The memories a briefing draws on: every one but the target, in order. */
  function BriefContext(targetId: string, all: seq<Memory>): seq<BriefEntry> {
    MapSeq(Describe, Filter(all, (m: Memory) => m.id != targetId))
  }

  /** The target is never in its own briefing, and every other memory is. */
  lemma BriefContextExact(targetId: string, all: seq<Memory>)
    ensures forall k :: 0 <= k < |BriefContext(targetId, all)| ==> BriefContext(targetId, all)[k].id != targetId
    ensures forall m :: m in all && m.id != targetId ==> Describe(m) in BriefContext(targetId, all)
  {
    var kept := Filter(all, (m: Memory) => m.id != targetId);
    forall m | m in all && m.id != targetId ensures Describe(m) in BriefContext(targetId, all) {
      var k :| 0 <= k < |kept| && kept[k] == m;
      assert BriefContext(targetId, all)[k] == Describe(m);
    }
  }

  /** `generateBriefing(target, all, apiKey, userName)`: the reply, or
      "Reminder: " and the target's content when the reply is empty or the
      call fails. */
  function GenerateBriefing(env: Env, target: Memory, all: seq<Memory>, apiKey: Option<string>, userName: string): (r: Outcome<string>)
    ensures r == Threw <==> GetClient(env, apiKey) == Threw
    ensures r.Done? ==>
      var req := Brief(FlashModel, if userName == "" then "the user" else userName, target.content,
                       BriefContext(target.id, all));
      var reply := env.gateway(GetClient(env, apiKey).value, req);
      r.value == if reply.Replied? && reply.text != "" then reply.text else "Reminder: " + target.content
  {
    match GetClient(env, apiKey)
    case Threw => Threw
    case Done(key) =>
      var req := Brief(FlashModel, if userName == "" then "the user" else userName, target.content,
                       BriefContext(target.id, all));
      match env.gateway(key, req)
      case Failed => Done("Reminder: " + target.content)
      case Replied(text, _) => Done(if text == "" then "Reminder: " + target.content else text)
  }

  // ---------------------------------------------------- chat configuration

  /** The personality line for a tone, with the default for any other name. */
  function ToneInstruction(tone: string): (r: string)
    ensures ParseAiTone(tone).None? ==> r == "Be friendly and helpful."
    ensures ParseAiTone(tone).Some? ==> r != "Be friendly and helpful."
  {
    if tone == "friendly" then "Be warm, encouraging, and conversational."
    else if tone == "professional" then "Be formal, efficient, and business-like."
    else if tone == "concise" then "Be extremely brief and to the point. Use bullet points where possible."
    else if tone == "enthusiastic" then "Be high energy, positive, and motivating!"
    else if tone == "explanatory" then "Be detailed and educational, explaining context thoroughly."
    else "Be friendly and helpful."
  }

  /** A thinking budget of 16000 is configured for the thinking model only. */
  function ThinkingBudget(model: string): (r: Option<nat>)
    ensures r.Some? <==> model == ThinkingModel
    ensures r.Some? ==> r.value == 16000
  {
    if model == ThinkingModel then Some(16000) else None
  }

  function ChatEntryOf(m: Memory, fmt: int -> string): ChatEntry {
    var reminder := match m.reminderTimestamp
                    case Some(t) => if t != 0 then Some(fmt(t)) else None
                    case None => None;
    ChatEntry(m.id, m.kind, fmt(m.timestamp), m.tags, m.content, reminder)
  }

  /** The session's memories as the system instruction lists them; a reminder
      is listed for a present, non-zero `reminderTimestamp` only. */
  function ChatContext(ms: seq<Memory>, fmt: int -> string): (r: MemoryContext)
    ensures ms == [] <==> r == NoMemories
    ensures r.Entries? ==> |r.entries| == |ms|
    ensures r.Entries? ==> forall k :: 0 <= k < |ms| ==>
              && r.entries[k].id == ms[k].id && r.entries[k].content == ms[k].content
              && (r.entries[k].reminder.Some? <==> ms[k].reminderTimestamp.Some? && ms[k].reminderTimestamp.value != 0)
  {
    if ms == [] then NoMemories else Entries(MapSeq((m: Memory) => ChatEntryOf(m, fmt), ms))
  }

  function FocusOf(m: Memory): (string, string) {
    (m.id, m.content)
  }

  /** The user turn: scoped to the memories whose id is among the context
      ids, when there are context ids and at least one memory matches. */
  function ChatPrompt(query: string, ms: seq<Memory>, contextIds: Option<seq<string>>): (r: Prompt)
    ensures r.query == query
    ensures r.Scoped? <==> contextIds.Some? && exists m :: m in ms && m.id in contextIds.value
    ensures r.Scoped? ==> r.focus == MapSeq(FocusOf, Filter(ms, (m: Memory) => m.id in contextIds.value))
  {
    if contextIds.Some? && |contextIds.value| > 0 then
      var specific := Filter(ms, (m: Memory) => m.id in contextIds.value);
      if |specific| > 0 then
        assert specific[0] in ms && specific[0].id in contextIds.value;
        Scoped(MapSeq(FocusOf, specific), query)
      else
        assert forall m :: m in ms && m.id in contextIds.value ==> m in specific;
        Plain(query)
    else Plain(query)
  }

  // ------------------------------------------------------ related ids tag

  const MarkerOpen := "||RELATED_IDS:["
  const MarkerClose := "]||"

  predicate IsLineTerminator(c: char) {
    c == '\n' || c == '\r' || c == '\U{2028}' || c == '\U{2029}'
  }

  /** `t[from..e]` is a lazy `.*?\]\|\|`: it ends with "]||" and no line
      terminator precedes that end. */
  predicate ClosesAt(t: string, from: int, e: int) {
    0 <= from && from + 3 <= e <= |t| && t[e - 3..e] == MarkerClose
    && forall k :: from <= k < e - 3 ==> !IsLineTerminator(t[k])
  }

  /** `t[s..e]` matches `/\|\|RELATED_IDS:(\[.*?\])\|\|/` with the lazy
      quantifier taking as little as possible. */
  predicate MarkerSpan(t: string, s: int, e: int) {
    0 <= s && s + 15 <= |t| && t[s..s + 15] == MarkerOpen && ClosesAt(t, s + 15, e)
  }

  /** The shortest end of a lazy match whose body starts at `j`; `from` is
      where the body began. */
  function LazyEnd(t: string, from: nat, j: nat): (r: Option<nat>)
    requires from <= j <= |t|
    requires forall k :: from <= k < j ==> !IsLineTerminator(t[k])
    requires forall e :: from + 3 <= e < j + 3 ==> !ClosesAt(t, from, e)
    ensures r.Some? ==> ClosesAt(t, from, r.value) && forall e :: from + 3 <= e < r.value ==> !ClosesAt(t, from, e)
    ensures r.None? ==> forall e :: !ClosesAt(t, from, e)
    decreases |t| - j
  {
    if j + 3 <= |t| && t[j..j + 3] == MarkerClose then Some(j + 3)
    else if j < |t| && !IsLineTerminator(t[j]) then LazyEnd(t, from, j + 1)
    else None
  }

  /** The leftmost match at or after `s`. */
  function MarkerFrom(t: string, s: nat): (r: Option<(nat, nat)>)
    requires s <= |t|
    ensures r.Some? ==> s <= r.value.0 && MarkerSpan(t, r.value.0, r.value.1)
    ensures r.Some? ==> forall a, e :: s <= a < r.value.0 ==> !MarkerSpan(t, a, e)
    ensures r.Some? ==> forall e :: e < r.value.1 ==> !MarkerSpan(t, r.value.0, e)
    ensures r.None? ==> forall a, e :: s <= a ==> !MarkerSpan(t, a, e)
    decreases |t| - s
  {
    var hit := if s + 15 <= |t| && t[s..s + 15] == MarkerOpen then LazyEnd(t, s + 15, s + 15) else None;
    if hit.Some? then Some((s, hit.value))
    else if s < |t| then MarkerFrom(t, s + 1)
    else None
  }

  /** `responseText.match(idPattern)`: the first match, as (start, end). */
  function FindMarker(t: string): (r: Option<(nat, nat)>)
    ensures r.Some? ==> MarkerSpan(t, r.value.0, r.value.1)
    ensures r.Some? ==> forall a, e :: 0 <= a < r.value.0 ==> !MarkerSpan(t, a, e)
    ensures r.Some? ==> forall e :: e < r.value.1 ==> !MarkerSpan(t, r.value.0, e)
    ensures r.None? ==> forall a, e :: !MarkerSpan(t, a, e)
  {
    MarkerFrom(t, 0)
  }

  /** The reply text without the first tag, and the identifiers the tag
      carried. A tag whose array does not parse is left in place. */
  function ExtractRelated(parse: string -> Option<Json>, t: string): (r: (string, seq<string>))
    ensures FindMarker(t).None? ==> r == (t, [])
    ensures FindMarker(t).Some? ==>
      var s, e := FindMarker(t).value.0, FindMarker(t).value.1;
      var parsed := parse(TagArray(t, s, e));
      && (parsed.None? ==> r == (t, []))
      && (parsed.Some? ==> r == (Trim(t[..s] + t[e..]), Strings(parsed.value)))
  {
    var m := FindMarker(t);
    if m.None? then (t, [])
    else
      var s, e := m.value.0, m.value.1;
      var parsed := parse(TagArray(t, s, e));
      if parsed.None? then (t, []) else (Trim(t[..s] + t[e..]), Strings(parsed.value))
  }

  /** The captured group of a match: the bracketed array text. */
  function TagArray(t: string, s: int, e: int): string
    requires MarkerSpan(t, s, e)
  {
    t[s + 14..e - 2]
  }

  /** The protocol round trip: an answer without '|', a space, then the tag
      "||RELATED_IDS:" + json + "||" whose array text has no ']' inside and no
      line break, reads back as the answer and the identifiers. */
  lemma RelatedTagRoundTrip(parse: string -> Option<Json>, answer: string, body: string, ids: seq<string>)
    requires IsTrimmed(answer) && forall k :: 0 <= k < |answer| ==> answer[k] != '|'
    requires forall k :: 0 <= k < |body| ==> body[k] != ']' && !IsLineTerminator(body[k])
    requires parse("[" + body + "]") == Some(StrArray(ids))
    ensures ExtractRelated(parse, answer + " " + "||RELATED_IDS:" + ("[" + body + "]") + "||") == (answer, ids)
  {
    var t := answer + " " + "||RELATED_IDS:" + ("[" + body + "]") + "||";
    var s := |answer| + 1;
    var e := |t|;
    TagIsFirstMarker(answer, body);
    assert TagArray(t, s, e) == "[" + body + "]";
    StringsOfStrArray(ids);
    assert t[..s] + t[e..] == answer + " ";
    TrimDropsTrailingSpace(answer, " ");
  }

  /** The appended tag is the first match of the pattern, and it spans to the
      end of the text. */
  lemma TagIsFirstMarker(answer: string, body: string)
    requires forall k :: 0 <= k < |answer| ==> answer[k] != '|'
    requires forall k :: 0 <= k < |body| ==> body[k] != ']' && !IsLineTerminator(body[k])
    ensures var t := answer + " " + "||RELATED_IDS:" + ("[" + body + "]") + "||";
            FindMarker(t) == Some((|answer| + 1, |t|))
  {
    var t := answer + " " + "||RELATED_IDS:" + ("[" + body + "]") + "||";
    var s := |answer| + 1;
    var e := |t|;
    assert t[s..s + 15] == MarkerOpen;
    assert t[e - 3..e] == MarkerClose;
    assert ClosesAt(t, s + 15, e);
    forall a, e' | 0 <= a < s ensures !MarkerSpan(t, a, e') {
      assert t[a] == if a < |answer| then answer[a] else ' ';
    }
    forall e' | e' < e ensures !MarkerSpan(t, s, e') {
      if s + 18 <= e' {
        assert t[e' - 3] == body[e' - 3 - s - 15];
      }
    }
    assert FindMarker(t) == Some((s, e)) by {
      var r := FindMarker(t);
      if r != Some((s, e)) {
        assert MarkerSpan(t, s, e);
      }
    }
  }

  // -------------------------------------------------------------- sources

  predicate HasWeb(c: Chunk) {
    c.web.Some? && c.web.value.uri != [] && c.web.value.title != []
  }

  predicate HasMap(c: Chunk) {
    c.maps.Some? && c.maps.value.uri != [] && c.maps.value.title != []
  }

  function WebLine(c: Chunk): string
    requires HasWeb(c)
  {
    "• [Web] " + c.web.value.title + ": " + c.web.value.uri
  }

  function MapLine(c: Chunk): string
    requires HasMap(c)
  {
    "• [Map] " + c.maps.value.title + ": " + c.maps.value.uri
  }

  /** One line per chunk with a web uri and title, in order. */
  function WebSources(cs: seq<Chunk>): (r: seq<string>)
    ensures |r| == |Filter(cs, HasWeb)|
    ensures forall k :: 0 <= k < |r| ==> HasWeb(Filter(cs, HasWeb)[k]) && r[k] == WebLine(Filter(cs, HasWeb)[k])
  {
    var hits := Filter(cs, HasWeb);
    seq(|hits|, k requires 0 <= k < |hits| => WebLine(hits[k]))
  }

  /** One line per chunk with a map uri and title, in order. */
  function MapSources(cs: seq<Chunk>): (r: seq<string>)
    ensures |r| == |Filter(cs, HasMap)|
    ensures forall k :: 0 <= k < |r| ==> HasMap(Filter(cs, HasMap)[k]) && r[k] == MapLine(Filter(cs, HasMap)[k])
  {
    var hits := Filter(cs, HasMap);
    seq(|hits|, k requires 0 <= k < |hits| => MapLine(hits[k]))
  }

  /** The web lines, then the map lines, each line once at its first place. */
  function AllSources(cs: seq<Chunk>): (r: seq<string>)
    ensures NoDup(r)
    ensures forall x :: x in r <==> x in WebSources(cs) || x in MapSources(cs)
  {
    Dedup(WebSources(cs) + MapSources(cs))
  }

  /** Web sources come first: the list is the web lines, each at its first
      occurrence, then the map lines that are not web lines, each at its first
      occurrence; distinct web lines open the list unchanged. */
  lemma WebSourcesFirst(cs: seq<Chunk>)
    ensures AllSources(cs) == Dedup(WebSources(cs)) + Without(Dedup(MapSources(cs)), WebSources(cs))
    ensures NoDup(WebSources(cs)) ==>
              |WebSources(cs)| <= |AllSources(cs)| && AllSources(cs)[..|WebSources(cs)|] == WebSources(cs)
  {
    DedupAppend(WebSources(cs), MapSources(cs));
    if NoDup(WebSources(cs)) {
      DedupKeepsDistinctPrefix(WebSources(cs), MapSources(cs));
    }
  }

  /** The source list is empty exactly when no chunk has both a uri and a
      title for the web or for maps. */
  lemma SourcesPresent(cs: seq<Chunk>)
    ensures |AllSources(cs)| > 0 <==> exists c :: c in cs && (HasWeb(c) || HasMap(c))
  {
    var all := AllSources(cs);
    var web, maps := Filter(cs, HasWeb), Filter(cs, HasMap);
    if |all| > 0 {
      var x := all[0];
      if x in WebSources(cs) {
        var k :| 0 <= k < |WebSources(cs)| && WebSources(cs)[k] == x;
        assert web[k] in cs && HasWeb(web[k]);
      } else {
        var k :| 0 <= k < |MapSources(cs)| && MapSources(cs)[k] == x;
        assert maps[k] in cs && HasMap(maps[k]);
      }
    }
    if c :| c in cs && (HasWeb(c) || HasMap(c)) {
      if HasWeb(c) {
        assert c in web;
        assert WebSources(cs)[0] in all;
      } else {
        assert c in maps;
        assert MapSources(cs)[0] in all;
      }
    }
  }

  /** The text appended to the reply: nothing when no chunk names a source,
      else the heading and one line per distinct source. */
  function SourcesBlock(cs: seq<Chunk>): (r: string)
    ensures r == [] <==> forall c :: c in cs ==> !HasWeb(c) && !HasMap(c)
    ensures r != [] ==> r == "\n\n**Sources:**\n" + Join(AllSources(cs), "\n")
  {
    SourcesPresent(cs);
    var all := AllSources(cs);
    if |all| > 0 then "\n\n**Sources:**\n" + Join(all, "\n") else ""
  }

  // ------------------------------------------------------------- response

  const NoResponseText := "I couldn't generate a response."
  const TroubleText := "I'm having trouble accessing my cognitive functions. Please check your API key in settings or network connection. If using the Thinking model, ensure you have quota."

  /** The chat request `generateResponse` sends. */
  function ChatRequest(env: Env, query: string, ms: seq<Memory>, contextIds: Option<seq<string>>,
                       userName: string, tone: string, model: string): Request
  {
    Chat(model, ChatPrompt(query, ms, contextIds), userName, ToneInstruction(tone),
         ChatContext(ms, env.localeString), [GoogleSearch, GoogleMaps], ThinkingBudget(model))
  }

  /** A tag starts with '|'. */
  lemma MarkerStartsWithBar(t: string, s: int, e: int)
    requires MarkerSpan(t, s, e)
    ensures 0 <= s < |t| && t[s] == '|'
  {
    assert t[s..s + 15][0] == t[s];
  }

  /** A text without '|' holds no tag. */
  lemma NoMarkerWithoutBar(t: string)
    requires forall k :: 0 <= k < |t| ==> t[k] != '|'
    ensures FindMarker(t).None?
  {
    var r := FindMarker(t);
    if r.Some? {
      MarkerStartsWithBar(t, r.value.0, r.value.1);
      assert false;
    }
  }

  /** The text of a reply once the tag is taken out and the sources added,
      and the tag's identifiers: the sources block always ends the text, what
      comes before it is the reply with its tag cut out and trimmed (the tag
      kept when its array does not parse), a reply without a tag is kept
      whole with no identifiers, and an empty
      reply becomes the fixed "couldn't generate" text. */
  function ReplyText(parse: string -> Option<Json>, text: string, chunks: seq<Chunk>): (r: (string, seq<string>))
    ensures r.1 == ExtractRelated(parse, if text == "" then NoResponseText else text).1
    ensures |SourcesBlock(chunks)| <= |r.0| && r.0[|r.0| - |SourcesBlock(chunks)|..] == SourcesBlock(chunks)
    ensures r.0[..|r.0| - |SourcesBlock(chunks)|] == ExtractRelated(parse, if text == "" then NoResponseText else text).0
    ensures text != "" && FindMarker(text).None? ==> r == (text + SourcesBlock(chunks), [])
    ensures text == "" ==> r == (NoResponseText + SourcesBlock(chunks), [])
  {
    NoMarkerWithoutBar(NoResponseText);
    var (t, ids) := ExtractRelated(parse, if text == "" then NoResponseText else text);
    (t + SourcesBlock(chunks), ids)
  }

  /** An answer followed by a well-formed tag reads back as the answer, then
      the sources, and exactly the tagged identifiers. */
  lemma ReplyTextOfTaggedAnswer(parse: string -> Option<Json>, answer: string, body: string, ids: seq<string>,
                                chunks: seq<Chunk>)
    requires IsTrimmed(answer) && forall k :: 0 <= k < |answer| ==> answer[k] != '|'
    requires forall k :: 0 <= k < |body| ==> body[k] != ']' && !IsLineTerminator(body[k])
    requires parse("[" + body + "]") == Some(StrArray(ids))
    ensures ReplyText(parse, answer + " " + "||RELATED_IDS:" + ("[" + body + "]") + "||", chunks)
              == (answer + SourcesBlock(chunks), ids)
  {
    RelatedTagRoundTrip(parse, answer, body, ids);
  }

  /** `generateResponse(query, memories, contextIds, apiKey, userName, aiTone,
      aiModel)` at time `now`: a message from the assistant, carrying its
      related identifiers when the model answered, and a fixed apology with
      none when the call failed. */
  function GenerateResponse(env: Env, query: string, ms: seq<Memory>, contextIds: Option<seq<string>>,
                            apiKey: Option<string>, userName: string, tone: string, model: string,
                            now: int): (r: Outcome<ChatMessage>)
    ensures r == Threw <==> GetClient(env, apiKey) == Threw
    ensures r.Done? ==> r.value.sender == Cortex && r.value.timestamp == now && r.value.id == IntToString(now)
    ensures r.Done? ==>
      var reply := env.gateway(GetClient(env, apiKey).value, ChatRequest(env, query, ms, contextIds, userName, tone, model));
      && (reply.Failed? ==> r.value.text == TroubleText && r.value.relatedMemoryIds.None?)
      && (reply.Replied? ==>
            && r.value.text == ReplyText(env.parse, reply.text, reply.chunks).0
            && r.value.relatedMemoryIds == Some(ReplyText(env.parse, reply.text, reply.chunks).1))
  {
    match GetClient(env, apiKey)
    case Threw => Threw
    case Done(key) =>
      match env.gateway(key, ChatRequest(env, query, ms, contextIds, userName, tone, model))
      case Failed => Done(ChatMessage(IntToString(now), Cortex, TroubleText, now, None))
      case Replied(text, chunks) =>
        var (t, ids) := ReplyText(env.parse, text, chunks);
        Done(ChatMessage(IntToString(now), Cortex, t, now, Some(ids)))
  }
}
