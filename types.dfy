/** The records and enumerations shared by every part of the application
    (types.ts). Optional fields of the TypeScript interfaces are `Option`s;
    timestamps are integral milliseconds since the epoch. */
module Types {
  import opened Util

  /** The kind of a memory; each variant's string value is its own name. */
  datatype MemoryType = TEXT | VOICE | IMAGE | VIDEO_DESC | OCR {
    function Name(): (r: string)
      ensures r != []
    {
      match this
      case TEXT => "TEXT"
      case VOICE => "VOICE"
      case IMAGE => "IMAGE"
      case VIDEO_DESC => "VIDEO_DESC"
      case OCR => "OCR"
    }
  }

  /** Reads a stored type string back into the enumeration. */
  function ParseMemoryType(s: string): (r: Option<MemoryType>)
    ensures r.Some? ==> r.value.Name() == s
    ensures r.None? ==> forall t: MemoryType :: t.Name() != s
  {
    if s == "TEXT" then Some(TEXT)
    else if s == "VOICE" then Some(VOICE)
    else if s == "IMAGE" then Some(IMAGE)
    else if s == "VIDEO_DESC" then Some(VIDEO_DESC)
    else if s == "OCR" then Some(OCR)
    else None
  }

  /** The string values are pairwise distinct, so a stored type names exactly
      one variant. */
  lemma MemoryTypeNameInjective(a: MemoryType, b: MemoryType)
    ensures a.Name() == b.Name() <==> a == b
  {
  }

  /** Who wrote a chat message. */
  datatype Sender = User | Cortex {
    function Name(): string {
      if User? then "user" else "cortex"
    }
  }

  function ParseSender(s: string): (r: Option<Sender>)
    ensures r.Some? ==> r.value.Name() == s
    ensures r.None? ==> forall t: Sender :: t.Name() != s
  {
    if s == "user" then Some(User) else if s == "cortex" then Some(Cortex) else None
  }

  /** The assistant's tone of voice: exactly five values. */
  datatype AiTone = Friendly | Professional | Concise | Enthusiastic | Explanatory {
    function Name(): string {
      match this
      case Friendly => "friendly"
      case Professional => "professional"
      case Concise => "concise"
      case Enthusiastic => "enthusiastic"
      case Explanatory => "explanatory"
    }
  }

  function ParseAiTone(s: string): (r: Option<AiTone>)
    ensures r.Some? ==> r.value.Name() == s
    ensures r.None? ==> forall t: AiTone :: t.Name() != s
  {
    if s == "friendly" then Some(Friendly)
    else if s == "professional" then Some(Professional)
    else if s == "concise" then Some(Concise)
    else if s == "enthusiastic" then Some(Enthusiastic)
    else if s == "explanatory" then Some(Explanatory)
    else None
  }

  /** The colour scheme: exactly three values. */
  datatype Theme = System | Light | Dark {
    function Name(): string {
      match this
      case System => "system"
      case Light => "light"
      case Dark => "dark"
    }
  }

  function ParseTheme(s: string): (r: Option<Theme>)
    ensures r.Some? ==> r.value.Name() == s
    ensures r.None? ==> forall t: Theme :: t.Name() != s
  {
    if s == "system" then Some(System)
    else if s == "light" then Some(Light)
    else if s == "dark" then Some(Dark)
    else None
  }

  /** A captured memory. The last five fields are optional (`?:`). */
  datatype Memory = Memory(
    id: string,
    kind: MemoryType,
    content: string,
    timestamp: int,
    tags: seq<string>,
    imageUrl: Option<string>,
    reminderTimestamp: Option<int>,
    linkedMemoryIds: Option<seq<string>>,
    isAnalyzing: Option<bool>,
    isPinned: Option<bool>)

  /** One message of the chat transcript; `relatedMemoryIds` is optional. */
  datatype ChatMessage = ChatMessage(
    id: string,
    sender: Sender,
    text: string,
    timestamp: int,
    relatedMemoryIds: Option<seq<string>>)

  /** User preferences. */
  datatype AppSettings = AppSettings(
    userName: string,
    apiKey: string,
    aiModel: string,
    aiTone: AiTone,
    autoDeleteMedia: bool,
    mediaRetentionDays: int,
    enableReminders: bool,
    enableSound: bool,
    enableBackgroundAnalysis: bool,
    theme: Theme)

  datatype ViewMode = Timeline | Grid | Calendar
  datatype AppScreen = Home | Add | Settings
}
