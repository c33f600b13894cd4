/** The record converters and request builders of the storage client
    (services/databaseService.ts). Rows use the server's snake_case names and
    store timestamps as decimal strings; the HTTP calls themselves are not
    part of this model. */
module DatabaseService {
  import opened Util
  import opened Numbers
  import opened Json
  import opened Types

  // --------------------------------------------------------------- memories

  /** The memory row shape the client code expects (the snake_case fields
      read by `dbMemoryToMemory`); `None` is a null or missing value. */
  datatype DbMemory = DbMemory(
    id: string,
    kind: MemoryType,
    content: string,
    timestamp: string,
    tags: Option<seq<string>>,
    imageUrl: Option<string>,
    reminderTimestamp: Option<string>,
    linkedMemoryIds: Option<seq<string>>,
    isAnalyzing: Option<bool>,
    isPinned: Option<bool>)

  /** The row's stored times read as integers (`parseInt` does not give NaN):
      the creation time always, the reminder when it is a non-empty string. */
  predicate NumericTimes(row: DbMemory) {
    && ParseInt(row.timestamp).Some?
    && (row.reminderTimestamp.Some? && row.reminderTimestamp.value != "" ==>
          ParseInt(row.reminderTimestamp.value).Some?)
  }

  /** `dbMemoryToMemory`: missing tags and links become `[]`, missing flags
      `false`, and an empty or missing reminder is absent. */
  function ToMemory(row: DbMemory): (m: Memory)
    requires NumericTimes(row)
    ensures m.id == row.id && m.kind == row.kind && m.content == row.content && m.imageUrl == row.imageUrl
    ensures Some(m.timestamp) == ParseInt(row.timestamp)
    ensures m.tags == row.tags.GetOr([])
    ensures m.linkedMemoryIds == Some(row.linkedMemoryIds.GetOr([]))
    ensures m.isAnalyzing == Some(row.isAnalyzing.Some? && row.isAnalyzing.value)
    ensures m.isPinned == Some(row.isPinned.Some? && row.isPinned.value)
    ensures m.reminderTimestamp.None? <==> row.reminderTimestamp.None? || row.reminderTimestamp == Some("")
    ensures m.reminderTimestamp.Some? ==> m.reminderTimestamp == ParseInt(row.reminderTimestamp.value)
  {
    Memory(
      row.id, row.kind, row.content,
      ParseInt(row.timestamp).value,
      row.tags.GetOr([]),
      row.imageUrl,
      if row.reminderTimestamp.Some? && row.reminderTimestamp.value != "" then ParseInt(row.reminderTimestamp.value) else None,
      Some(row.linkedMemoryIds.GetOr([])),
      Some(row.isAnalyzing.GetOr(false)),
      Some(row.isPinned.GetOr(false)))
  }

  lemma ParseOptionalInt(r: Option<int>)
    ensures r.Some? ==> ParseInt(IntToString(r.value)) == r
  {
    if r.Some? {
      ParseIntOfIntToString(r.value);
    }
  }

  /** `memoryToDbMemory`: the same fields, times written in decimal. */
  function ToDbMemory(m: Memory): (row: DbMemory)
    ensures NumericTimes(row)
    ensures row.timestamp == IntToString(m.timestamp)
    ensures row.reminderTimestamp.Some? <==> m.reminderTimestamp.Some?
  {
    ParseIntOfIntToString(m.timestamp);
    ParseOptionalInt(m.reminderTimestamp);
    DbMemory(
      m.id, m.kind, m.content,
      IntToString(m.timestamp),
      Some(m.tags),
      m.imageUrl,
      if m.reminderTimestamp.Some? then Some(IntToString(m.reminderTimestamp.value)) else None,
      m.linkedMemoryIds,
      m.isAnalyzing,
      m.isPinned)
  }

  /** A memory after a store-and-load: absent links and flags take their
      defaults, everything else is kept. */
  function WithDefaults(m: Memory): (r: Memory)
    ensures r.id == m.id && r.kind == m.kind && r.content == m.content && r.timestamp == m.timestamp
    ensures r.tags == m.tags && r.imageUrl == m.imageUrl && r.reminderTimestamp == m.reminderTimestamp
    ensures r.linkedMemoryIds == Some(if m.linkedMemoryIds.Some? then m.linkedMemoryIds.value else [])
    ensures r.isAnalyzing == Some(m.isAnalyzing.Some? && m.isAnalyzing.value)
    ensures r.isPinned == Some(m.isPinned.Some? && m.isPinned.value)
    ensures r == m <==> m.linkedMemoryIds.Some? && m.isAnalyzing.Some? && m.isPinned.Some?
  {
    m.(linkedMemoryIds := Some(m.linkedMemoryIds.GetOr([])),
       isAnalyzing := Some(m.isAnalyzing.GetOr(false)),
       isPinned := Some(m.isPinned.GetOr(false)))
  }

  /** Writing a memory and reading it back gives it with defaults filled in. */
  lemma MemoryRoundTrip(m: Memory)
    ensures ToMemory(ToDbMemory(m)) == WithDefaults(m)
  {
    ParseIntOfIntToString(m.timestamp);
    if m.reminderTimestamp.Some? {
      ParseIntOfIntToString(m.reminderTimestamp.value);
    }
  }

  /** ... and exactly the memory when its optional links and flags are present. */
  lemma MemoryRoundTripExact(m: Memory)
    ensures ToMemory(ToDbMemory(m)) == m <==>
              m.linkedMemoryIds.Some? && m.isAnalyzing.Some? && m.isPinned.Some?
  {
    MemoryRoundTrip(m);
  }

  /** A row in canonical form (decimal times, present tags, links and flags)
      survives a load-and-store unchanged. */
  lemma RowRoundTrip(row: DbMemory, t: int, reminder: Option<int>)
    requires row.timestamp == IntToString(t)
    requires row.reminderTimestamp == (if reminder.Some? then Some(IntToString(reminder.value)) else None)
    requires row.tags.Some? && row.linkedMemoryIds.Some? && row.isAnalyzing.Some? && row.isPinned.Some?
    ensures NumericTimes(row) && ToDbMemory(ToMemory(row)) == row
  {
    ParseIntOfIntToString(t);
    if reminder.Some? {
      ParseIntOfIntToString(reminder.value);
      assert IntToString(reminder.value) != "";
    }
  }

  /** `getMemories` converts every row, in order. */
  function LoadMemories(rows: seq<DbMemory>): (ms: seq<Memory>)
    requires forall k :: 0 <= k < |rows| ==> NumericTimes(rows[k])
    ensures |ms| == |rows| && forall k :: 0 <= k < |rows| ==> ms[k] == ToMemory(rows[k])
  {
    seq(|rows|, k requires 0 <= k < |rows| => ToMemory(rows[k]))
  }

  // ------------------------------------------------------------ chat rows

  datatype DbChatMessage = DbChatMessage(
    id: string,
    sender: Sender,
    text: string,
    timestamp: string,
    relatedMemoryIds: Option<seq<string>>)

  /** `dbChatMessageToChatMessage`: missing related ids become `[]`. */
  function ToChatMessage(row: DbChatMessage): (msg: ChatMessage)
    requires ParseInt(row.timestamp).Some?
    ensures msg.id == row.id && msg.sender == row.sender && msg.text == row.text
    ensures Some(msg.timestamp) == ParseInt(row.timestamp)
    ensures msg.relatedMemoryIds == Some(row.relatedMemoryIds.GetOr([]))
  {
    ChatMessage(row.id, row.sender, row.text, ParseInt(row.timestamp).value,
                Some(row.relatedMemoryIds.GetOr([])))
  }

  /** `chatMessageToDbChatMessage`. */
  function ToDbChatMessage(msg: ChatMessage): (row: DbChatMessage)
    ensures ParseInt(row.timestamp) == Some(msg.timestamp)
  {
    ParseIntOfIntToString(msg.timestamp);
    DbChatMessage(msg.id, msg.sender, msg.text, IntToString(msg.timestamp), msg.relatedMemoryIds)
  }

  /** A message survives a store-and-load, an absent id list coming back empty. */
  lemma ChatMessageRoundTrip(msg: ChatMessage)
    ensures ToChatMessage(ToDbChatMessage(msg))
              == msg.(relatedMemoryIds := Some(msg.relatedMemoryIds.GetOr([])))
  {
  }

  // ------------------------------------------------------------- requests

  /** The query string of `getMemories(limit, offset, type, tags, pinnedOnly)`,
      as the key/value pairs appended to `URLSearchParams`, in order. */
  method MemoryQuery(limit: int, offset: int, kind: Option<MemoryType>, tags: Option<seq<string>>, pinnedOnly: bool)
    returns (params: seq<(string, string)>)
    ensures |params| >= 2 && params[0] == ("limit", IntToString(limit)) && params[1] == ("offset", IntToString(offset))
    ensures ("type", "") !in params
    ensures forall v :: ("type", v) in params <==> kind.Some? && v == kind.value.Name()
    ensures forall v :: ("tags", v) in params <==> tags.Some? && |tags.value| > 0 && v == Join(tags.value, ",")
    ensures forall v :: ("pinnedOnly", v) in params <==> pinnedOnly && v == "true"
    ensures |params| == 2 + (if kind.Some? then 1 else 0) + (if tags.Some? && |tags.value| > 0 then 1 else 0)
                          + (if pinnedOnly then 1 else 0)
    ensures kind.Some? ==> params[2] == ("type", kind.value.Name())
    ensures tags.Some? && |tags.value| > 0 ==>
              params[if kind.Some? then 3 else 2] == ("tags", Join(tags.value, ","))
    ensures pinnedOnly ==> params[|params| - 1] == ("pinnedOnly", "true")
  {
    params := [("limit", IntToString(limit)), ("offset", IntToString(offset))];
    if kind.Some? {
      params := params + [("type", kind.value.Name())];
    }
    if tags.Some? && |tags.value| > 0 {
      params := params + [("tags", Join(tags.value, ","))];
    }
    if pinnedOnly {
      params := params + [("pinnedOnly", "true")];
    }
  }

  /** The query string of `getChatMessages(limit, offset)`. */
  function ChatQuery(limit: int, offset: int): (params: seq<(string, string)>)
    ensures |params| == 2 && params[0].0 == "limit" && params[1].0 == "offset"
    ensures ParseInt(params[0].1) == Some(limit) && ParseInt(params[1].1) == Some(offset)
  {
    ParseIntOfIntToString(limit);
    ParseIntOfIntToString(offset);
    [("limit", IntToString(limit)), ("offset", IntToString(offset))]
  }

  /** The row `createChatMessage` posts: the message stamped with now. */
  function CreatedChatRow(msg: ChatMessage, now: int): (row: DbChatMessage)
    ensures ParseInt(row.timestamp) == Some(now)
    ensures row.id == msg.id && row.sender == msg.sender && row.text == msg.text
    ensures row.relatedMemoryIds == msg.relatedMemoryIds
  {
    ToDbChatMessage(msg.(timestamp := now))
  }

  /** The row `createMemory` posts: the memory with its time replaced by now. */
  function CreatedRow(m: Memory, now: int): (row: DbMemory)
    ensures ParseInt(row.timestamp) == Some(now)
    ensures row == ToDbMemory(m.(timestamp := now))
  {
    ParseIntOfIntToString(now);
    ToDbMemory(m.(timestamp := now))
  }

  /** The fields of a partial update (`Partial<Omit<Memory, 'id' | 'timestamp'>>`). */
  datatype MemoryUpdates = MemoryUpdates(
    kind: Option<MemoryType>,
    content: Option<string>,
    tags: Option<seq<string>>,
    imageUrl: Option<string>,
    reminderTimestamp: Option<int>,
    linkedMemoryIds: Option<seq<string>>,
    isAnalyzing: Option<bool>,
    isPinned: Option<bool>)

  function StrList(xs: seq<string>): Json {
    StrArray(xs)
  }

  /** `{ ...updates }`: one key per field that is present, under its own name. */
  function Spread(u: MemoryUpdates): (r: map<string, Json>)
    ensures r.Keys <= UpdateKeys
    ensures "reminder_timestamp" !in r
    ensures ("type" in r <==> u.kind.Some?) && (u.kind.Some? ==> r["type"] == JStr(u.kind.value.Name()))
    ensures ("content" in r <==> u.content.Some?) && (u.content.Some? ==> r["content"] == JStr(u.content.value))
    ensures ("tags" in r <==> u.tags.Some?) && (u.tags.Some? ==> r["tags"] == StrArray(u.tags.value))
    ensures ("imageUrl" in r <==> u.imageUrl.Some?) && (u.imageUrl.Some? ==> r["imageUrl"] == JStr(u.imageUrl.value))
    ensures ("reminderTimestamp" in r <==> u.reminderTimestamp.Some?)
            && (u.reminderTimestamp.Some? ==> r["reminderTimestamp"] == JNum(u.reminderTimestamp.value as real))
    ensures ("linkedMemoryIds" in r <==> u.linkedMemoryIds.Some?)
            && (u.linkedMemoryIds.Some? ==> r["linkedMemoryIds"] == StrArray(u.linkedMemoryIds.value))
    ensures ("isAnalyzing" in r <==> u.isAnalyzing.Some?) && (u.isAnalyzing.Some? ==> r["isAnalyzing"] == JBool(u.isAnalyzing.value))
    ensures ("isPinned" in r <==> u.isPinned.Some?) && (u.isPinned.Some? ==> r["isPinned"] == JBool(u.isPinned.value))
  {
    map k | k in UpdateKeys && Field(u, k).Some? :: Field(u, k).value
  }

  /** The names of the fields of a memory that an update may carry. */
  const UpdateKeys := {"type", "content", "tags", "imageUrl", "reminderTimestamp", "linkedMemoryIds", "isAnalyzing", "isPinned"}

  /** The value an update gives the field named `k`, when it gives one. */
  function Field(u: MemoryUpdates, k: string): Option<Json> {
    if k == "type" then (if u.kind.Some? then Some(JStr(u.kind.value.Name())) else None)
    else if k == "content" then (if u.content.Some? then Some(JStr(u.content.value)) else None)
    else if k == "tags" then (if u.tags.Some? then Some(StrList(u.tags.value)) else None)
    else if k == "imageUrl" then (if u.imageUrl.Some? then Some(JStr(u.imageUrl.value)) else None)
    else if k == "reminderTimestamp" then
      (if u.reminderTimestamp.Some? then Some(JNum(u.reminderTimestamp.value as real)) else None)
    else if k == "linkedMemoryIds" then (if u.linkedMemoryIds.Some? then Some(StrList(u.linkedMemoryIds.value)) else None)
    else if k == "isAnalyzing" then (if u.isAnalyzing.Some? then Some(JBool(u.isAnalyzing.value)) else None)
    else if k == "isPinned" then (if u.isPinned.Some? then Some(JBool(u.isPinned.value)) else None)
    else None
  }

  /** The body `updateMemory` sends: every update unchanged, plus the reminder
      as a decimal string under the row's name when a reminder is given. */
  method UpdateBody(u: MemoryUpdates) returns (body: map<string, Json>)
    ensures forall k :: k in Spread(u) ==> k in body && body[k] == Spread(u)[k]
    ensures "reminder_timestamp" in body <==> u.reminderTimestamp.Some?
    ensures u.reminderTimestamp.Some? ==> body["reminder_timestamp"] == JStr(IntToString(u.reminderTimestamp.value))
    ensures body.Keys == Spread(u).Keys + (if u.reminderTimestamp.Some? then {"reminder_timestamp"} else {})
  {
    body := Spread(u);
    if u.reminderTimestamp.Some? {
      body := body["reminder_timestamp" := JStr(IntToString(u.reminderTimestamp.value))];
    }
  }

  // ------------------------------------------------------------- settings

  /** The settings row shape the client code expects, field for field
      under snake_case names. */
  datatype DbSettings = DbSettings(
    user_name: string,
    api_key: string,
    ai_model: string,
    ai_tone: AiTone,
    auto_delete_media: bool,
    media_retention_days: int,
    enable_reminders: bool,
    enable_sound: bool,
    enable_background_analysis: bool,
    theme: Theme)

  function FromDbSettings(d: DbSettings): (s: AppSettings)
    ensures s.userName == d.user_name && s.apiKey == d.api_key && s.aiModel == d.ai_model
    ensures s.aiTone == d.ai_tone && s.theme == d.theme && s.mediaRetentionDays == d.media_retention_days
    ensures s.autoDeleteMedia == d.auto_delete_media && s.enableReminders == d.enable_reminders
    ensures s.enableSound == d.enable_sound && s.enableBackgroundAnalysis == d.enable_background_analysis
  {
    AppSettings(d.user_name, d.api_key, d.ai_model, d.ai_tone, d.auto_delete_media, d.media_retention_days,
                d.enable_reminders, d.enable_sound, d.enable_background_analysis, d.theme)
  }

  function ToDbSettings(s: AppSettings): DbSettings {
    DbSettings(s.userName, s.apiKey, s.aiModel, s.aiTone, s.autoDeleteMedia, s.mediaRetentionDays,
               s.enableReminders, s.enableSound, s.enableBackgroundAnalysis, s.theme)
  }

  /** `getSettings`: no stored row gives no settings. */
  function LoadSettings(row: Option<DbSettings>): (r: Option<AppSettings>)
    ensures r.None? <==> row.None?
    ensures r.Some? ==> ToDbSettings(r.value) == row.value
  {
    if row.Some? then Some(FromDbSettings(row.value)) else None
  }

  /** The renaming is a bijection: each direction undoes the other. */
  lemma SettingsRenameRoundTrip(s: AppSettings, d: DbSettings)
    ensures FromDbSettings(ToDbSettings(s)) == s
    ensures ToDbSettings(FromDbSettings(d)) == d
  {
  }
}
