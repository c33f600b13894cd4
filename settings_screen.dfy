/** The settings screen (SettingsScreen.tsx): the edited copy of the
    settings, the backup file it exports and the backup file it imports.
    Clocks, the file picker, the file reader and `confirm` are parameters. */
module SettingsScreen {
  import opened Util
  import opened Numbers
  import opened Json
  import opened Types
  import opened CortexService

  // ------------------------------------------------------------ the form

  /** The keys of the settings record. */
  datatype Field =
    | UserNameField | ApiKeyField | AiModelField | AiToneField | AutoDeleteMediaField
    | RetentionField | RemindersField | SoundField | BackgroundAnalysisField | ThemeField

  /** A settings value, tagged with its type. */
  datatype Value = Text(s: string) | Flag(b: bool) | Number(n: int) | ToneValue(tone: AiTone) | ThemeValue(theme: Theme)

  /** `settings[key]`. */
  function Get(s: AppSettings, f: Field): Value {
    match f
    case UserNameField => Text(s.userName)
    case ApiKeyField => Text(s.apiKey)
    case AiModelField => Text(s.aiModel)
    case AiToneField => ToneValue(s.aiTone)
    case AutoDeleteMediaField => Flag(s.autoDeleteMedia)
    case RetentionField => Number(s.mediaRetentionDays)
    case RemindersField => Flag(s.enableReminders)
    case SoundField => Flag(s.enableSound)
    case BackgroundAnalysisField => Flag(s.enableBackgroundAnalysis)
    case ThemeField => ThemeValue(s.theme)
  }

  /** A value of the type the field holds. */
  predicate Fits(f: Field, v: Value) {
    match f
    case UserNameField => v.Text?
    case ApiKeyField => v.Text?
    case AiModelField => v.Text?
    case AiToneField => v.ToneValue?
    case AutoDeleteMediaField => v.Flag?
    case RetentionField => v.Number?
    case RemindersField => v.Flag?
    case SoundField => v.Flag?
    case BackgroundAnalysisField => v.Flag?
    case ThemeField => v.ThemeValue?
  }

  /** `{ ...prev, [key]: value }`. */
  function Set(s: AppSettings, f: Field, v: Value): AppSettings
    requires Fits(f, v)
  {
    match f
    case UserNameField => s.(userName := v.s)
    case ApiKeyField => s.(apiKey := v.s)
    case AiModelField => s.(aiModel := v.s)
    case AiToneField => s.(aiTone := v.tone)
    case AutoDeleteMediaField => s.(autoDeleteMedia := v.b)
    case RetentionField => s.(mediaRetentionDays := v.n)
    case RemindersField => s.(enableReminders := v.b)
    case SoundField => s.(enableSound := v.b)
    case BackgroundAnalysisField => s.(enableBackgroundAnalysis := v.b)
    case ThemeField => s.(theme := v.theme)
  }

  /** The changed field reads back the new value. */
  lemma GetSetSame(s: AppSettings, f: Field, v: Value)
    requires Fits(f, v)
    ensures Get(Set(s, f, v), f) == v
  {
  }

  /** Every other field keeps its value. */
  lemma GetSetOther(s: AppSettings, f: Field, v: Value, g: Field)
    requires Fits(f, v) && g != f
    ensures Get(Set(s, f, v), g) == Get(s, g)
  {
    match f
    case UserNameField =>
    case ApiKeyField =>
    case AiModelField =>
    case AiToneField =>
    case AutoDeleteMediaField =>
    case RetentionField =>
    case RemindersField =>
    case SoundField =>
    case BackgroundAnalysisField =>
    case ThemeField =>
  }

  /** Two settings records with the same value in every field are equal, so
      the two lemmas above say all there is about a change. */
  lemma FieldsDetermineSettings(a: AppSettings, b: AppSettings)
    requires forall f :: Get(a, f) == Get(b, f)
    ensures a == b
  {
    assert Get(a, UserNameField) == Get(b, UserNameField) && Get(a, ApiKeyField) == Get(b, ApiKeyField);
    assert Get(a, AiModelField) == Get(b, AiModelField) && Get(a, AiToneField) == Get(b, AiToneField);
    assert Get(a, AutoDeleteMediaField) == Get(b, AutoDeleteMediaField) && Get(a, RetentionField) == Get(b, RetentionField);
    assert Get(a, RemindersField) == Get(b, RemindersField) && Get(a, SoundField) == Get(b, SoundField);
    assert Get(a, BackgroundAnalysisField) == Get(b, BackgroundAnalysisField) && Get(a, ThemeField) == Get(b, ThemeField);
  }

  /** Writing a field's own value back changes nothing. */
  lemma SetUnchanged(s: AppSettings, f: Field)
    ensures Fits(f, Get(s, f)) && Set(s, f, Get(s, f)) == s
  {
  }

  /** The edited copy shown by the screen. */
  class SettingsForm {
    var formData: AppSettings
    var showKey: bool

    constructor (settings: AppSettings)
      ensures formData == settings && !showKey
    {
      formData := settings;
      showKey := false;
    }

    /** `handleChange(key, value)`: only that field changes. */
    method HandleChange(f: Field, v: Value)
      requires Fits(f, v)
      modifies this`formData
      ensures formData == Set(old(formData), f, v)
      ensures Get(formData, f) == v
      ensures forall g :: g != f ==> Get(formData, g) == Get(old(formData), g)
    {
      formData := Set(formData, f, v);
      GetSetSame(old(formData), f, v);
      forall g | g != f ensures Get(formData, g) == Get(old(formData), g) {
        GetSetOther(old(formData), f, v, g);
      }
    }

    /** The SHOW/HIDE button. */
    method ToggleShowKey()
      modifies this`showKey
      ensures showKey == !old(showKey)
    {
      showKey := !showKey;
    }

    /** `onSave(formData)`: the edited copy is what the shell saves. */
    method Save() returns (saved: AppSettings)
      ensures saved == formData
    {
      saved := formData;
    }
  }

  /** The input type of the key box. */
  function KeyInputType(showKey: bool): (r: string)
    ensures r == "text" <==> showKey
  {
    if showKey then "text" else "password"
  }

  /** The hint under the model picker. */
  function ModelHint(model: string): (r: string)
    ensures r == "Advanced reasoning enabled. Slower but smarter." <==> ThinkingBudget(model).Some?
  {
    if model == "gemini-3-pro-preview" then "Advanced reasoning enabled. Slower but smarter."
    else "Optimized for speed and quick tasks."
  }

  /** The retention read-out: the number of days, then " Day" exactly for
      one day and " Days" for every other value. */
  function RetentionLabel(days: int): (r: string)
    ensures |IntToString(days)| <= |r| && r[..|IntToString(days)|] == IntToString(days)
    ensures r[|IntToString(days)|..] == " Day" <==> days == 1
    ensures r[|IntToString(days)|..] == " Days" <==> days != 1
  {
    var r := IntToString(days) + " " + (if days == 1 then "Day" else "Days");
    assert r[|IntToString(days)|..] == if days == 1 then " Day" else " Days";
    r
  }

  /** The read-out starts with the number of days on the slider (1 to 60). */
  lemma RetentionLabelCount(days: int)
    requires 1 <= days <= 60
    ensures ParseInt(RetentionLabel(days)) == Some(days)
  {
    var rest := if days == 1 then " Day" else " Days";
    assert IntToString(days) == NatToString(days);
    assert RetentionLabel(days) == NatToString(days) + rest;
    ParseIntOfPrefix(days, rest);
  }

  // ------------------------------------------------------------ backup codec

  /** The properties `JSON.stringify` writes for a memory: the required
      ones, and an optional one only when it is present. */
  function MemoryKeys(m: Memory): set<string> {
    {"id", "type", "content", "timestamp", "tags"}
    + (if m.imageUrl.Some? then {"imageUrl"} else {})
    + (if m.reminderTimestamp.Some? then {"reminderTimestamp"} else {})
    + (if m.linkedMemoryIds.Some? then {"linkedMemoryIds"} else {})
    + (if m.isAnalyzing.Some? then {"isAnalyzing"} else {})
    + (if m.isPinned.Some? then {"isPinned"} else {})
  }

  /** The value written under a key; numbers become JSON numbers. */
  function MemoryProperty(m: Memory, key: string): Json {
    if key == "id" then JStr(m.id)
    else if key == "type" then JStr(m.kind.Name())
    else if key == "content" then JStr(m.content)
    else if key == "timestamp" then JNum(m.timestamp as real)
    else if key == "tags" then StrArray(m.tags)
    else if key == "imageUrl" then JStr(m.imageUrl.GetOr(""))
    else if key == "reminderTimestamp" then JNum(m.reminderTimestamp.GetOr(0) as real)
    else if key == "linkedMemoryIds" then StrArray(m.linkedMemoryIds.GetOr([]))
    else if key == "isAnalyzing" then JBool(m.isAnalyzing.GetOr(false))
    else JBool(m.isPinned.GetOr(false))
  }

  /** `JSON.stringify` of a memory record: an object with the required
      properties and exactly the optional ones that are present. */
  function MemoryJson(m: Memory): (r: Json)
    ensures r.JObj? && r.fields.Keys == MemoryKeys(m)
  {
    JObj(map key | key in MemoryKeys(m) :: MemoryProperty(m, key))
  }

  function AsString(fields: map<string, Json>, key: string): Option<string> {
    if key in fields && fields[key].JStr? then Some(fields[key].s) else None
  }

  function AsInt(fields: map<string, Json>, key: string): Option<int> {
    if key in fields && fields[key].JNum? && fields[key].n == fields[key].n.Floor as real
    then Some(fields[key].n.Floor) else None
  }

  function AsBool(fields: map<string, Json>, key: string): Option<bool> {
    if key in fields && fields[key].JBool? then Some(fields[key].b) else None
  }

  function AsStrings(fields: map<string, Json>, key: string): Option<seq<string>> {
    if key in fields && fields[key].JArr? then Some(Strings(fields[key])) else None
  }

  /** Reading an imported object as a memory record: the required
      properties must be there with their types; an optional one is absent
      unless it has its type. */
  function MemoryOf(j: Json): Option<Memory> {
    if !j.JObj? then None
    else
      var f := j.fields;
      var id, kind, content, ts, tags := AsString(f, "id"), AsString(f, "type"), AsString(f, "content"),
                                        AsInt(f, "timestamp"), AsStrings(f, "tags");
      if id.None? || kind.None? || content.None? || ts.None? || tags.None? then None
      else if ParseMemoryType(kind.value).None? then None
      else Some(Memory(id.value, ParseMemoryType(kind.value).value, content.value, ts.value, tags.value,
                       AsString(f, "imageUrl"), AsInt(f, "reminderTimestamp"), AsStrings(f, "linkedMemoryIds"),
                       AsBool(f, "isAnalyzing"), AsBool(f, "isPinned")))
  }

  lemma NameParses(t: MemoryType)
    ensures ParseMemoryType(t.Name()) == Some(t)
  {
    match t
    case TEXT => case VOICE => case IMAGE => case VIDEO_DESC => case OCR =>
  }

  /** The written properties of a memory, key by key. */
  lemma MemoryJsonFields(m: Memory)
    ensures MemoryJson(m).JObj?
    ensures AsString(MemoryJson(m).fields, "id") == Some(m.id)
    ensures AsString(MemoryJson(m).fields, "type") == Some(m.kind.Name())
    ensures AsString(MemoryJson(m).fields, "content") == Some(m.content)
    ensures AsInt(MemoryJson(m).fields, "timestamp") == Some(m.timestamp)
    ensures "tags" in MemoryJson(m).fields && MemoryJson(m).fields["tags"] == StrArray(m.tags)
  {
    assert (m.timestamp as real).Floor == m.timestamp;
  }

  /** The optional properties read back as they were, absent when absent. */
  lemma ImageUrlRoundTrip(m: Memory)
    ensures AsString(MemoryJson(m).fields, "imageUrl") == m.imageUrl
  {
    assert "imageUrl" in MemoryKeys(m) <==> m.imageUrl.Some?;
  }

  lemma ReminderRoundTrip(m: Memory)
    ensures AsInt(MemoryJson(m).fields, "reminderTimestamp") == m.reminderTimestamp
  {
    assert "reminderTimestamp" in MemoryKeys(m) <==> m.reminderTimestamp.Some?;
    if m.reminderTimestamp.Some? {
      assert (m.reminderTimestamp.value as real).Floor == m.reminderTimestamp.value;
    }
  }

  lemma LinksRoundTrip(m: Memory)
    ensures AsStrings(MemoryJson(m).fields, "linkedMemoryIds") == m.linkedMemoryIds
  {
    assert "linkedMemoryIds" in MemoryKeys(m) <==> m.linkedMemoryIds.Some?;
    if m.linkedMemoryIds.Some? {
      StringsOfStrArray(m.linkedMemoryIds.value);
    }
  }

  lemma AnalyzingRoundTrip(m: Memory)
    ensures AsBool(MemoryJson(m).fields, "isAnalyzing") == m.isAnalyzing
  {
    assert "isAnalyzing" in MemoryKeys(m) <==> m.isAnalyzing.Some?;
  }

  lemma PinnedRoundTrip(m: Memory)
    ensures AsBool(MemoryJson(m).fields, "isPinned") == m.isPinned
  {
    assert "isPinned" in MemoryKeys(m) <==> m.isPinned.Some?;
  }

  /** A memory written to a backup reads back as the same memory. */
  lemma MemoryRoundTrip(m: Memory)
    ensures MemoryOf(MemoryJson(m)) == Some(m)
  {
    MemoryJsonFields(m);
    ImageUrlRoundTrip(m);
    ReminderRoundTrip(m);
    LinksRoundTrip(m);
    AnalyzingRoundTrip(m);
    PinnedRoundTrip(m);
    NameParses(m.kind);
    StringsOfStrArray(m.tags);
    assert AsStrings(MemoryJson(m).fields, "tags") == Some(m.tags);
  }

  // ------------------------------------------------------------ export

  const BackupVersion := "1.0"

  /** The object a backup file holds: version "1.0", the clock reading and
      one record per memory, in order. */
  function BackupJson(now: int, memories: seq<Memory>): (r: Json)
    ensures Prop(r, "version") == Found(JStr(BackupVersion))
    ensures Prop(r, "timestamp") == Found(JNum(now as real))
    ensures Prop(r, "memories").Found? && Prop(r, "memories").value.JArr?
    ensures var elems := Prop(r, "memories").value.elems;
            |elems| == |memories| && forall k :: 0 <= k < |memories| ==> elems[k] == MemoryJson(memories[k])
  {
    JObj(map["version" := JStr(BackupVersion), "timestamp" := JNum(now as real),
             "memories" := JArr(MapSeq(MemoryJson, memories))])
  }

  /** `handleExport`: no file for an empty list ("No memories to export."),
      otherwise the envelope of version "1.0", the clock reading and the
      memories passed in. */
  function Export(memories: seq<Memory>, now: int): (r: Option<Json>)
    ensures r.None? <==> memories == []
    ensures r.Some? ==> r.value == BackupJson(now, memories)
  {
    if |memories| == 0 then None else Some(BackupJson(now, memories))
  }

  const BackupPrefix := "nomorize_backup_"

  /** The download name: "nomorize_backup_", the first ten characters of the
      ISO time (at most ten: `slice` stops at the end), then ".json". */
  function BackupFileName(iso: string): (r: string)
    ensures |r| == |BackupPrefix| + (if |iso| >= 10 then 10 else |iso|) + 5
    ensures r[..|BackupPrefix|] == BackupPrefix && r[|r| - 5..] == ".json"
    ensures r[|BackupPrefix|..|r| - 5] == iso[..if |iso| >= 10 then 10 else |iso|]
  {
    var date := if |iso| >= 10 then iso[..10] else iso;
    var r := BackupPrefix + date + ".json";
    assert r[|BackupPrefix|..|r| - 5] == date;
    r
  }

  /** Two backups get the same name exactly when they were made on the same
      (UTC) date: an ISO time starts with its `YYYY-MM-DD` date. */
  lemma BackupFileNameByDate(a: string, b: string)
    requires |a| >= 10 && |b| >= 10
    ensures BackupFileName(a) == BackupFileName(b) <==> a[..10] == b[..10]
  {
    var ra, rb := BackupFileName(a), BackupFileName(b);
    if ra == rb {
      assert ra[|BackupPrefix|..|ra| - 5] == rb[|BackupPrefix|..|rb| - 5];
    }
  }

  // ------------------------------------------------------------ import

  /** What choosing a file leads to. */
  datatype ImportResult =
    | NoFile
    | ParseFailed                      // "Failed to parse JSON file."
    | InvalidFormat                    // "Invalid backup file format."
    | Declined(count: nat)             // the confirmation was refused
    | Imported(memories: seq<Json>)    // handed to `onImportMemories`

  const ParseFailedText := "Failed to parse JSON file."
  const InvalidFormatText := "Invalid backup file format."

  /** The alert shown for a rejected file. */
  function AlertOf(r: ImportResult): Option<string> {
    match r
    case ParseFailed => Some(ParseFailedText)
    case InvalidFormat => Some(InvalidFormatText)
    case Imported(_) => Some("Import successful!")
    case _ => None
  }

  /** `handleFileChange` once the reader has the text: a parse failure, or a
      `null` document whose property access throws, is a parse failure; the
      file is accepted exactly when `memories` is an array, and then, if
      the user confirms, that array is handed on unchanged. */
  function ImportFile(text: Option<string>, parse: string -> Option<Json>, confirmed: bool): (r: ImportResult)
    ensures text.None? ==> r == NoFile
    ensures text.Some? && parse(text.value).None? ==> r == ParseFailed
    ensures text.Some? && parse(text.value) == Some(JNull) ==> r == ParseFailed
    ensures r.Imported? || r.Declined? <==>
              text.Some? && parse(text.value).Some? && Prop(parse(text.value).value, "memories").Found?
              && Prop(parse(text.value).value, "memories").value.JArr?
    ensures r.Imported? ==> confirmed && r.memories == Prop(parse(text.value).value, "memories").value.elems
    ensures r.Declined? ==> !confirmed && r.count == |Prop(parse(text.value).value, "memories").value.elems|
  {
    if text.None? then NoFile
    else
      var json := parse(text.value);
      if json.None? then ParseFailed
      else
        var ms := Prop(json.value, "memories");
        if ms == TypeError then ParseFailed
        else if ms.Found? && Truthy(ms.value) && ms.value.JArr? then
          if confirmed then Imported(ms.value.elems) else Declined(|ms.value.elems|)
        else InvalidFormat
  }

  /** The rejection messages name the two cases apart. */
  lemma ImportAlerts(text: string, parse: string -> Option<Json>, confirmed: bool)
    ensures (AlertOf(ImportFile(Some(text), parse, confirmed)) == Some(ParseFailedText))
            == (parse(text).None? || parse(text) == Some(JNull))
    ensures (AlertOf(ImportFile(Some(text), parse, confirmed)) == Some(InvalidFormatText))
            == (parse(text).Some? && parse(text) != Some(JNull)
                && !(Prop(parse(text).value, "memories").Found? && Prop(parse(text).value, "memories").value.JArr?))
  {
  }

  /** An exported backup is accepted again, and every memory in it reads
      back as itself, in order. */
  lemma ExportImportRoundTrip(memories: seq<Memory>, now: int, text: string, parse: string -> Option<Json>)
    requires memories != [] && parse(text) == Export(memories, now)
    ensures ImportFile(Some(text), parse, true).Imported?
    ensures |ImportFile(Some(text), parse, true).memories| == |memories|
    ensures forall k :: 0 <= k < |memories| ==> MemoryOf(ImportFile(Some(text), parse, true).memories[k]) == Some(memories[k])
  {
    var elems := MapSeq(MemoryJson, memories);
    assert Prop(BackupJson(now, memories), "memories") == Found(JArr(elems));
    forall k | 0 <= k < |memories|
      ensures MemoryOf(elems[k]) == Some(memories[k])
    {
      MemoryRoundTrip(memories[k]);
    }
  }
}
