/** The memory capture form (components/AddMemoryForm.tsx): its fields are the
    fields of `MemoryForm`, every handler is a method that updates them, and
    the list and text rules the handlers apply are functions with their
    properties proved beside them. The asynchronous handlers run to completion
    in one call; timers fire as separate calls. */
module AddMemoryForm {
  import opened Util
  import opened Json
  import opened Types
  import opened CortexService

  const AnalysisMarker := "--- Cortex Analysis ---"
  const FeedbackTag := "feedback"
  const SimulatedTranscript := "This is a simulated voice transcription of my thoughts regarding the project timeline."

  // ------------------------------------------------------------------ tags

  /** `handleAddTag` on Enter: the trimmed input is appended unless present. */
  function AddTag(tags: seq<string>, input: string): (r: seq<string>)
    ensures Trim(input) in r
    ensures |tags| <= |r| <= |tags| + 1 && r[..|tags|] == tags
    ensures forall x :: x in r <==> x in tags || x == Trim(input)
  {
    var t := Trim(input);
    if t in tags then tags else tags + [t]
  }

  /** Adding a tag keeps the list free of repeats. */
  lemma AddTagNoDup(tags: seq<string>, input: string)
    requires NoDup(tags)
    ensures NoDup(AddTag(tags, input))
  {
  }

  /** `removeTag`: every occurrence goes, the other tags stay in order. */
  function RemoveTag(tags: seq<string>, t: string): (r: seq<string>)
    ensures t !in r
    ensures forall x :: x != t ==> (x in r <==> x in tags)
    ensures IsSubseq(r, tags)
  {
    FilterIsSubseq(tags, x => x != t);
    Filter(tags, x => x != t)
  }

  /** Removal keeps each other tag exactly as often as it occurred. */
  lemma RemoveTagCounts(tags: seq<string>, t: string, x: string)
    ensures multiset(RemoveTag(tags, t))[x] == if x == t then 0 else multiset(tags)[x]
  {
    FilterCount(tags, x => x != t, x);
  }

  /** The tags after an analysis: the current ones, then the suggested ones,
      each once, at its first occurrence. */
  function MergeTags(tags: seq<string>, suggested: seq<string>): (r: seq<string>)
    ensures NoDup(r)
    ensures forall x :: x in r <==> x in tags || x in suggested
  {
    Dedup(tags + suggested)
  }

  /** Merging never reorders or drops the tags already there. */
  lemma MergeTagsKeepsExisting(tags: seq<string>, suggested: seq<string>)
    requires NoDup(tags)
    ensures |tags| <= |MergeTags(tags, suggested)| && MergeTags(tags, suggested)[..|tags|] == tags
  {
    DedupKeepsDistinctPrefix(tags, suggested);
  }

  // -------------------------------------------------------------- feedback

  /** Entering feedback mode: the tag is added once. */
  function WithFeedback(tags: seq<string>): (r: seq<string>)
    ensures FeedbackTag in r && NoDup(r)
    ensures forall x :: x in r <==> x in tags || x == FeedbackTag
  {
    Dedup(tags + [FeedbackTag])
  }

  /** Leaving feedback mode: the tag is removed. */
  function WithoutFeedback(tags: seq<string>): (r: seq<string>)
    ensures FeedbackTag !in r
    ensures forall x :: x != FeedbackTag ==> (x in r <==> x in tags)
  {
    RemoveTag(tags, FeedbackTag)
  }

  /** In feedback mode the tag occurs exactly once. */
  lemma FeedbackTagOnce(tags: seq<string>)
    ensures multiset(WithFeedback(tags))[FeedbackTag] == 1
  {
    var r := WithFeedback(tags);
    var k :| 0 <= k < |r| && r[k] == FeedbackTag;
    assert r == r[..k] + [r[k]] + r[k + 1..];
    assert FeedbackTag !in r[..k] && FeedbackTag !in r[k + 1..];
  }

  /** Entering and leaving feedback mode gives back distinct tags that did
      not hold the feedback tag. */
  lemma FeedbackRoundTrip(tags: seq<string>)
    requires NoDup(tags) && FeedbackTag !in tags
    ensures WithoutFeedback(WithFeedback(tags)) == tags
  {
    DedupSnoc(tags, FeedbackTag);
    DedupOfDistinct(tags);
    FilterAppend(tags, [FeedbackTag], x => x != FeedbackTag);
    FilterAll(tags, x => x != FeedbackTag);
  }

  // ---------------------------------------------------------------- links

  /** `toggleLinkSelection`: remove the id when selected, else append it. */
  function ToggleId(ids: seq<string>, id: string): (r: seq<string>)
    ensures id in r <==> id !in ids
    ensures forall x :: x != id ==> (x in r <==> x in ids)
  {
    if id in ids then RemoveTag(ids, id) else ids + [id]
  }

  /** Toggling twice restores which ids are selected ... */
  lemma ToggleTwiceMembers(ids: seq<string>, id: string, x: string)
    ensures x in ToggleId(ToggleId(ids, id), id) <==> x in ids
  {
  }

  /** ... and, starting from an unselected id, the list itself. */
  lemma ToggleTwiceUnselected(ids: seq<string>, id: string)
    requires id !in ids
    ensures ToggleId(ToggleId(ids, id), id) == ids
  {
    FilterAppend(ids, [id], x => x != id);
    FilterAll(ids, x => x != id);
  }

  // ------------------------------------------------------ content merge

  /** The section an analysis adds below the note. */
  function Section(analysis: string): (r: string)
    ensures |r| == |analysis| + |AnalysisMarker| + 3 && r[|r| - |analysis|..] == analysis
  {
    "\n\n" + AnalysisMarker + "\n" + analysis
  }

  lemma EndsWithSection(t: string, analysis: string)
    ensures var r := t + Section(analysis); |analysis| <= |r| && r[|r| - |analysis|..] == analysis
  {
    var r := t + Section(analysis);
    assert r[|r| - |analysis|..] == Section(analysis)[|Section(analysis)| - |analysis|..];
  }

  /** The `setContent` updater of `runAnalysis`: a note that already has an
      analysis section keeps its trimmed text before the first marker and
      gets the new section; a non-blank note without the marker that does not
      contain the analysis gets the section appended; anything else is
      replaced by the analysis. */
  function MergeAnalysis(prev: string, analysis: string): (r: string)
    ensures |analysis| <= |r| && r[|r| - |analysis|..] == analysis
  {
    if Contains(prev, AnalysisMarker) then
      var t := Trim(Before(prev, AnalysisMarker));
      EndsWithSection(t, analysis);
      t + Section(analysis)
    else if |Trim(prev)| > 0 && !Contains(prev, analysis) then
      EndsWithSection(prev, analysis);
      prev + Section(analysis)
    else analysis
  }

  lemma MarkerHasNoNewline()
    ensures |AnalysisMarker| > 0 && forall j :: 0 <= j < |AnalysisMarker| ==> AnalysisMarker[j] != '\n'
  {
  }

  /** After a text without the marker, the first marker is the one the
      section starts with. */
  lemma FirstMarkerOfSection(t: string, analysis: string)
    requires !Contains(t, AnalysisMarker)
    ensures IndexOf(t + Section(analysis), AnalysisMarker) == |t| + 2
    ensures Contains(t + Section(analysis), AnalysisMarker)
    ensures Before(t + Section(analysis), AnalysisMarker) == t + "\n\n"
  {
    var m := AnalysisMarker;
    var s := t + Section(analysis);
    MarkerHasNoNewline();
    assert s == (t + "\n\n") + m + ("\n" + analysis);
    assert s[|t| + 2..|t| + 2 + |m|] == m;
    assert MatchAt(s, m, |t| + 2);
    forall k | 0 <= k < |t| + 2
      ensures !MatchAt(s, m, k)
    {
      if k + |m| <= |t| {
        assert s[k..k + |m|] == t[k..k + |m|];
        assert !MatchAt(t, m, k);
      } else {
        var j := if k <= |t| then |t| - k else 0;
        if k + |m| <= |s| {
          assert s[k..k + |m|][j] == '\n' != m[j];
        }
      }
    }
    assert s[..|t| + 2] == t + "\n\n";
  }

  /** Merging into a trimmed, marker-free text followed by its own section
      gives that text back. */
  lemma MergeOfSection(t: string, analysis: string)
    requires IsTrimmed(t) && !Contains(t, AnalysisMarker)
    ensures MergeAnalysis(t + Section(analysis), analysis) == t + Section(analysis)
  {
    var once := t + Section(analysis);
    FirstMarkerOfSection(t, analysis);
    TrimDropsTrailingSpace(t, "\n\n");
    assert Trim(Before(once, AnalysisMarker)) == t;
  }

  /** A note that already has an analysis section is stable under
      re-applying the same analysis. */
  lemma MergeTwiceMarked(prev: string, analysis: string)
    requires Contains(prev, AnalysisMarker)
    ensures MergeAnalysis(MergeAnalysis(prev, analysis), analysis) == MergeAnalysis(prev, analysis)
  {
    var m := AnalysisMarker;
    var t := Trim(Before(prev, m));
    BeforeLacks(prev, m);
    TrimLacks(Before(prev, m), m);
    assert MergeAnalysis(prev, analysis) == t + Section(analysis);
    MergeOfSection(t, analysis);
  }

  /** A trimmed note that received an appended section is stable too. */
  lemma MergeTwiceAppended(prev: string, analysis: string)
    requires !Contains(prev, AnalysisMarker) && |Trim(prev)| > 0 && !Contains(prev, analysis)
    requires IsTrimmed(prev)
    ensures MergeAnalysis(MergeAnalysis(prev, analysis), analysis) == MergeAnalysis(prev, analysis)
  {
    assert MergeAnalysis(prev, analysis) == prev + Section(analysis);
    MergeOfSection(prev, analysis);
  }

  /** A note replaced by an analysis without the marker stays that analysis. */
  lemma MergeTwiceReplaced(prev: string, analysis: string)
    requires !Contains(prev, AnalysisMarker) && !(|Trim(prev)| > 0 && !Contains(prev, analysis))
    requires !Contains(analysis, AnalysisMarker)
    ensures MergeAnalysis(MergeAnalysis(prev, analysis), analysis) == MergeAnalysis(prev, analysis)
  {
    assert MatchAt(analysis, analysis, 0);
  }

  /** Re-applying an analysis is a no-op when the note already had an analysis
      section, or when it is trimmed and the analysis holds no marker. */
  lemma MergeIdempotent(prev: string, analysis: string)
    requires Contains(prev, AnalysisMarker) || (IsTrimmed(prev) && !Contains(analysis, AnalysisMarker))
    ensures MergeAnalysis(MergeAnalysis(prev, analysis), analysis) == MergeAnalysis(prev, analysis)
  {
    if Contains(prev, AnalysisMarker) {
      MergeTwiceMarked(prev, analysis);
    } else if |Trim(prev)| > 0 && !Contains(prev, analysis) {
      MergeTwiceAppended(prev, analysis);
    } else {
      MergeTwiceReplaced(prev, analysis);
    }
  }

  /** A note starting or ending with white space, without the marker, loses
      that white space on the second application: the merge is then not
      idempotent. */
  lemma MergeNotIdempotentUntrimmed(prev: string, analysis: string)
    requires !Contains(prev, AnalysisMarker) && |Trim(prev)| > 0 && !Contains(prev, analysis)
    requires !IsTrimmed(prev)
    ensures MergeAnalysis(MergeAnalysis(prev, analysis), analysis) != MergeAnalysis(prev, analysis)
  {
    FirstMarkerOfSection(prev, analysis);
    TrimShortens(prev, "\n\n");
  }

  /** An analysis holding the marker, replacing a blank note or one that
      contains it, grows on the second application. */
  lemma MergeNotIdempotentMarkedAnalysis(prev: string, analysis: string)
    requires !Contains(prev, AnalysisMarker) && !(|Trim(prev)| > 0 && !Contains(prev, analysis))
    requires Contains(analysis, AnalysisMarker)
    ensures MergeAnalysis(MergeAnalysis(prev, analysis), analysis) != MergeAnalysis(prev, analysis)
  {
    assert MergeAnalysis(prev, analysis) == analysis;
    assert |MergeAnalysis(analysis, analysis)| > |analysis|;
  }

  /** A note with an analysis section keeps exactly its trimmed original text
      in front of the new section: the old analysis is replaced, not stacked. */
  lemma MergeReplacesSection(prev: string, analysis: string)
    requires Contains(prev, AnalysisMarker)
    ensures Before(MergeAnalysis(prev, analysis), AnalysisMarker) == Trim(Before(prev, AnalysisMarker)) + "\n\n"
  {
    BeforeLacks(prev, AnalysisMarker);
    TrimLacks(Before(prev, AnalysisMarker), AnalysisMarker);
    FirstMarkerOfSection(Trim(Before(prev, AnalysisMarker)), analysis);
  }

  // ------------------------------------------------------- analysis result

  /** `result.analysis || ""` when the value is a string (other values are
      read as absent). */
  function AnalysisText(v: Json): (r: string)
    ensures Prop(v, "analysis").Found? && Prop(v, "analysis").value.JStr? ==> r == Prop(v, "analysis").value.s
    ensures !(Prop(v, "analysis").Found? && Prop(v, "analysis").value.JStr?) ==> r == ""
  {
    match Prop(v, "analysis")
    case Found(JStr(s)) => s
    case _ => ""
  }

  /** The string elements of `result.tags` when it is an array. */
  function AnalysisTags(v: Json): (r: seq<string>)
    ensures forall x :: x in r <==> Prop(v, "tags").Found? && Prop(v, "tags").value.JArr?
                                    && JStr(x) in Prop(v, "tags").value.elems
  {
    match Prop(v, "tags")
    case Found(t) => Strings(t)
    case _ => []
  }

  /** `result.reminderISO` when it is a non-empty string. */
  function ReminderIso(v: Json): (r: Option<string>)
    ensures r.Some? <==> Prop(v, "reminderISO").Found? && Prop(v, "reminderISO").value.JStr?
                         && Prop(v, "reminderISO").value.s != ""
    ensures r.Some? ==> Prop(v, "reminderISO") == Found(JStr(r.value))
  {
    match Prop(v, "reminderISO")
    case Found(JStr(s)) => if s != "" then Some(s) else None
    case _ => None
  }

  /** `/^https?:\/\/[^\s]+$/.test(s)`. */
  predicate IsHttpUrl(s: string) {
    || (|s| > 7 && s[..7] == "http://" && forall k :: 7 <= k < |s| ==> !IsSpace(s[k]))
    || (|s| > 8 && s[..8] == "https://" && forall k :: 8 <= k < |s| ==> !IsSpace(s[k]))
  }

  /** `file.type.startsWith('image/')`. */
  predicate IsImageFile(f: ImageFile) {
    |f.mimeType| >= 6 && f.mimeType[..6] == "image/"
  }

  /** One entry of the clipboard: its MIME type and `getAsFile()`. */
  datatype ClipItem = ClipItem(kind: string, file: Option<ImageFile>)

  predicate PastesImage(item: ClipItem) {
    Contains(item.kind, "image") && item.file.Some?
  }

  /** The index of the first clipboard entry that is an image with a file, or -1. */
  function FirstPastedImage(items: seq<ClipItem>): (r: int)
    ensures -1 <= r < |items|
    ensures r >= 0 ==> PastesImage(items[r]) && forall k :: 0 <= k < r ==> !PastesImage(items[k])
    ensures r == -1 ==> forall k :: 0 <= k < |items| ==> !PastesImage(items[k])
  {
    if items == [] then -1
    else if PastesImage(items[0]) then 0
    else var r' := FirstPastedImage(items[1..]); if r' == -1 then -1 else r' + 1
  }

  /** What `onSave` receives. */
  datatype Submission = Submission(kind: MemoryType, content: string, tags: seq<string>,
                                   image: Option<ImageFile>, reminder: Option<int>, links: seq<string>)

  // ------------------------------------------------------------ the form

  /** A snapshot of every field of the form. */
  datatype FormState = FormState(
    activeType: MemoryType,
    isBulkMode: bool,
    content: string,
    tagInput: string,
    tags: seq<string>,
    selectedImage: Option<ImageFile>,
    isListening: bool,
    isAnalyzing: bool,
    isFeedbackMode: bool,
    reminderInput: string,
    hasAutoAnalyzed: bool,
    suggestedLinkIds: seq<string>,
    confirmedLinkIds: seq<string>,
    isCheckingLinks: bool,
    bulkFiles: seq<ImageFile>)

  const Initial := FormState(TEXT, false, "", "", [], None, false, false, false, "", false, [], [], false, [])

  // ------------------------------------------------------ runAnalysis stages

  /** Entering the `try`: the spinner is on and both link lists are empty. */
  function Started(s: FormState): FormState {
    s.(isAnalyzing := true, suggestedLinkIds := [], confirmedLinkIds := [])
  }

  /** The `catch` and `finally` blocks. */
  function Aborted(s: FormState): FormState {
    s.(isCheckingLinks := false, isAnalyzing := false)
  }

  /** The content and tag updates of a result. */
  function Merged(s: FormState, v: Json): FormState {
    var analysis := AnalysisText(v);
    s.(content := if analysis != "" then MergeAnalysis(s.content, analysis) else s.content,
       tags := if |AnalysisTags(v)| > 0 then MergeTags(s.tags, AnalysisTags(v)) else s.tags)
  }

  /** The memory `runAnalysis` asks `findConnections` about, built from the
      fields as they were when the analysis started. */
  function TempMemory(s: FormState, v: Json, t: int, now: int): Memory {
    var analysis := AnalysisText(v);
    Memory("temp", s.activeType, if analysis != "" then analysis else s.content, now,
           s.tags + AnalysisTags(v), None, Some(t), None, None, None)
  }

  /** The reminder and link-suggestion block, applied to `m`; `base` is the
      state the analysis started from, `connect` is `findConnections` against
      the form's memories, and `hasMemories` tells whether there are any. */
  function Linked(m: FormState, base: FormState, env: Env, connect: Memory -> Outcome<seq<string>>,
                  hasMemories: bool, v: Json, now: int): FormState
  {
    if ReminderIso(v).None? then m
    else match env.parseDate(ReminderIso(v).value)
      case None => m
      case Some(t) => LinkLookup(m.(reminderInput := env.localInput(t)), hasMemories, connect(TempMemory(base, v, t, now)))
  }

  /** The `findConnections` call, made only when there are memories, and what
      it returned. */
  function LinkLookup(r: FormState, hasMemories: bool, links: Outcome<seq<string>>): FormState
  {
    if !hasMemories then r
    else match links
      case Threw => r.(isCheckingLinks := true)
      case Done(ids) => r.(suggestedLinkIds := ids, confirmedLinkIds := ids, isCheckingLinks := false)
  }

  /** The end of the `try` and the `finally` block. */
  function Finished(s: FormState): FormState {
    s.(hasAutoAnalyzed := true, isAnalyzing := false)
  }

  /** The state after `runAnalysis` has run to its end, from the state `s` it
      started in, given what `analyzeContent` returned. */
  function Analyzed(s: FormState, result: Outcome<Json>, env: Env, connect: Memory -> Outcome<seq<string>>,
                    hasMemories: bool, now: int): FormState
  {
    match result
    case Threw => Aborted(Started(s))
    case Done(v) =>
      if v == JNull then Aborted(Started(s))
      else Finished(Linked(Merged(Started(s), v), Started(s), env, connect, hasMemories, v, now))
  }

  /** `findConnections` against the memories of the form. */
  function Connector(env: Env, memories: seq<Memory>, apiKey: Option<string>): Memory -> Outcome<seq<string>> {
    m => FindConnections(env, m, memories, apiKey)
  }

  /** Every exit of `runAnalysis` clears `isAnalyzing`, and the confirmed links
      are always the suggested ones. */
  lemma AnalysisClearsSpinner(s: FormState, result: Outcome<Json>, env: Env, connect: Memory -> Outcome<seq<string>>,
                              hasMemories: bool, now: int)
    ensures var a := Analyzed(s, result, env, connect, hasMemories, now);
            !a.isAnalyzing && a.suggestedLinkIds == a.confirmedLinkIds
  {
    if result.Done? && result.value != JNull {
      var v := result.value;
      var m := Merged(Started(s), v);
      LinkedPairsLinks(m, Started(s), env, connect, hasMemories, v, now);
      assert Analyzed(s, result, env, connect, hasMemories, now)
          == Finished(Linked(m, Started(s), env, connect, hasMemories, v, now));
    }
  }

  /** When the service throws, or its result is `null`, only the link lists
      and the flags change. */
  lemma AnalysisFailure(s: FormState, result: Outcome<Json>, env: Env, connect: Memory -> Outcome<seq<string>>,
                        hasMemories: bool, now: int)
    requires result.Threw? || result.value == JNull
    ensures Analyzed(s, result, env, connect, hasMemories, now)
              == s.(suggestedLinkIds := [], confirmedLinkIds := [], isCheckingLinks := false, isAnalyzing := false)
  {
  }

  /** The link block sets the suggested and confirmed lists together. */
  lemma LinkedPairsLinks(m: FormState, base: FormState, env: Env, connect: Memory -> Outcome<seq<string>>,
                         hasMemories: bool, v: Json, now: int)
    requires m.suggestedLinkIds == m.confirmedLinkIds
    ensures var l := Linked(m, base, env, connect, hasMemories, v, now);
            l.suggestedLinkIds == l.confirmedLinkIds
  {
    LinkedKeepsDraft(m, base, env, connect, hasMemories, v, now);
  }

  /** The link block touches only the reminder input and the link fields. */
  lemma LinkedKeepsDraft(m: FormState, base: FormState, env: Env, connect: Memory -> Outcome<seq<string>>,
                         hasMemories: bool, v: Json, now: int)
    ensures var l := Linked(m, base, env, connect, hasMemories, v, now);
            l == m.(reminderInput := l.reminderInput, suggestedLinkIds := l.suggestedLinkIds,
                    confirmedLinkIds := l.confirmedLinkIds, isCheckingLinks := l.isCheckingLinks)
  {
    if ReminderIso(v).Some? && env.parseDate(ReminderIso(v).value).Some? {
      var t := env.parseDate(ReminderIso(v).value).value;
      var r := m.(reminderInput := env.localInput(t));
      var c := connect(TempMemory(base, v, t, now));
      LookupKeepsDraft(r, hasMemories, c);
      assert Linked(m, base, env, connect, hasMemories, v, now) == LinkLookup(r, hasMemories, c);
    } else {
      assert Linked(m, base, env, connect, hasMemories, v, now) == m;
    }
  }

  lemma LookupKeepsDraft(r: FormState, hasMemories: bool, c: Outcome<seq<string>>)
    ensures var l := LinkLookup(r, hasMemories, c);
            l == r.(suggestedLinkIds := l.suggestedLinkIds, confirmedLinkIds := l.confirmedLinkIds,
                    isCheckingLinks := l.isCheckingLinks)
  {
    if hasMemories {
      if c.Threw? {
        assert LinkLookup(r, hasMemories, c) == r.(isCheckingLinks := true);
      } else {
        assert LinkLookup(r, hasMemories, c)
            == r.(suggestedLinkIds := c.value, confirmedLinkIds := c.value, isCheckingLinks := false);
      }
    }
  }

  /** A result merges its analysis into the content and its tags into the
      tags, and marks the input as analysed. */
  lemma AnalysisMerges(s: FormState, v: Json, env: Env, connect: Memory -> Outcome<seq<string>>,
                       hasMemories: bool, now: int)
    requires v != JNull
    ensures var a := Analyzed(s, Done(v), env, connect, hasMemories, now);
            && a.hasAutoAnalyzed
            && a.content == (if AnalysisText(v) != "" then MergeAnalysis(s.content, AnalysisText(v)) else s.content)
            && a.tags == (if |AnalysisTags(v)| > 0 then MergeTags(s.tags, AnalysisTags(v)) else s.tags)
            && a.activeType == s.activeType && a.selectedImage == s.selectedImage
  {
    var m := Merged(Started(s), v);
    LinkedKeepsDraft(m, Started(s), env, connect, hasMemories, v, now);
  }

  /** Without a valid reminder date the reminder input and the link-check flag
      stay as they were and no link is suggested. */
  lemma AnalysisWithoutReminder(s: FormState, v: Json, env: Env, connect: Memory -> Outcome<seq<string>>,
                                hasMemories: bool, now: int)
    requires v != JNull
    requires ReminderIso(v).None? || env.parseDate(ReminderIso(v).value).None?
    ensures var a := Analyzed(s, Done(v), env, connect, hasMemories, now);
            a.reminderInput == s.reminderInput && a.suggestedLinkIds == [] && a.isCheckingLinks == s.isCheckingLinks
  {
  }

  /** With a valid reminder date the input shows it; with memories to compare
      against, both link lists become what the lookup returns for the
      temporary memory, and without memories none is suggested. */
  lemma AnalysisWithReminder(s: FormState, v: Json, env: Env, connect: Memory -> Outcome<seq<string>>,
                             hasMemories: bool, now: int)
    requires v != JNull && ReminderIso(v).Some? && env.parseDate(ReminderIso(v).value).Some?
    ensures var t := env.parseDate(ReminderIso(v).value).value;
            var a := Analyzed(s, Done(v), env, connect, hasMemories, now);
            && a.reminderInput == env.localInput(t)
            && (!hasMemories ==> a.suggestedLinkIds == [] && a.isCheckingLinks == s.isCheckingLinks)
            && (hasMemories && connect(TempMemory(s, v, t, now)).Done? ==>
                  a.suggestedLinkIds == connect(TempMemory(s, v, t, now)).value && !a.isCheckingLinks)
  {
    var t := env.parseDate(ReminderIso(v).value).value;
    assert TempMemory(Started(s), v, t, now) == TempMemory(s, v, t, now);
  }

  /** The analysis and the link lookup build their client from the same key,
      so once an analysis came back the lookup cannot throw and the link-check
      spinner is always cleared. */
  lemma LinkCheckNeverSticks(s: FormState, env: Env, memories: seq<Memory>, apiKey: Option<string>,
                             text: string, file: Option<ImageFile>, now: int)
    requires AnalyzeContent(env, text, file, apiKey).Done?
    requires var v := AnalyzeContent(env, text, file, apiKey).value;
             v != JNull && ReminderIso(v).Some? && env.parseDate(ReminderIso(v).value).Some? && |memories| > 0
    ensures !Analyzed(s, AnalyzeContent(env, text, file, apiKey), env, Connector(env, memories, apiKey), true, now).isCheckingLinks
  {
    var v := AnalyzeContent(env, text, file, apiKey).value;
    var t := env.parseDate(ReminderIso(v).value).value;
    assert GetClient(env, apiKey).Done?;
    assert Connector(env, memories, apiKey)(TempMemory(s, v, t, now)).Done?;
    AnalysisWithReminder(s, v, env, Connector(env, memories, apiKey), true, now);
  }

  /** An analysis that throws leaves `hasAutoAnalyzed` unset, so the video
      link effect, which watches `isAnalyzing`, is armed again. */
  lemma FailedAnalysisRearms(s: FormState, env: Env, connect: Memory -> Outcome<seq<string>>,
                             hasMemories: bool, now: int)
    requires s.activeType == VIDEO_DESC && !s.hasAutoAnalyzed
    ensures var a := Analyzed(s, Threw, env, connect, hasMemories, now);
            a.activeType == VIDEO_DESC && !a.hasAutoAnalyzed && !a.isAnalyzing && a.content == s.content
  {
  }

  class MemoryForm {
    var activeType: MemoryType
    var isBulkMode: bool
    var content: string
    var tagInput: string
    var tags: seq<string>
    var selectedImage: Option<ImageFile>
    var isListening: bool
    var isAnalyzing: bool
    var isFeedbackMode: bool
    var reminderInput: string
    var hasAutoAnalyzed: bool
    var suggestedLinkIds: seq<string>
    var confirmedLinkIds: seq<string>
    var isCheckingLinks: bool
    var bulkFiles: seq<ImageFile>
    const memories: seq<Memory>
    const apiKey: Option<string>

    function State(): FormState
      reads this
    {
      FormState(activeType, isBulkMode, content, tagInput, tags, selectedImage, isListening, isAnalyzing,
                isFeedbackMode, reminderInput, hasAutoAnalyzed, suggestedLinkIds, confirmedLinkIds,
                isCheckingLinks, bulkFiles)
    }

    /** The tag list never holds a tag twice. */
    ghost predicate Valid()
      reads this
    {
      NoDup(tags)
    }

    constructor(memories: seq<Memory>, apiKey: Option<string>)
      ensures State() == Initial && Valid()
      ensures this.memories == memories && this.apiKey == apiKey
    {
      this.memories, this.apiKey := memories, apiKey;
      activeType, isBulkMode, content, tagInput, tags := TEXT, false, "", "", [];
      selectedImage, isListening, isAnalyzing, isFeedbackMode := None, false, false, false;
      reminderInput, hasAutoAnalyzed, suggestedLinkIds := "", false, [];
      confirmedLinkIds, isCheckingLinks, bulkFiles := [], false, [];
    }

    /** A key press in the tag input. */
    method HandleAddTag(key: string)
      requires Valid()
      modifies this
      ensures Valid()
      ensures key == "Enter" && !IsBlank(old(tagInput)) ==>
                State() == old(State()).(tags := AddTag(old(tags), old(tagInput)), tagInput := "")
      ensures !(key == "Enter" && !IsBlank(old(tagInput))) ==> State() == old(State())
    {
      if key == "Enter" && |Trim(tagInput)| > 0 {
        AddTagNoDup(tags, tagInput);
        tags := AddTag(tags, tagInput);
        tagInput := "";
      }
    }

    method RemoveTagClick(t: string)
      requires Valid()
      modifies this
      ensures Valid()
      ensures State() == old(State()).(tags := RemoveTag(old(tags), t))
    {
      FilterNoDup(tags, x => x != t);
      tags := RemoveTag(tags, t);
    }

    /** `handleImageSelect`: the first chosen file, re-arming the auto analysis. */
    method HandleImageSelect(files: seq<ImageFile>)
      modifies this
      ensures |files| > 0 ==> State() == old(State()).(selectedImage := Some(files[0]), hasAutoAnalyzed := false)
      ensures |files| == 0 ==> State() == old(State())
    {
      if |files| > 0 {
        selectedImage := Some(files[0]);
        hasAutoAnalyzed := false;
      }
    }

    /** The remove button on the image preview: the confirmed links stay. */
    method ClearImage()
      modifies this
      ensures State() == old(State()).(selectedImage := None, reminderInput := "", hasAutoAnalyzed := false,
                                       suggestedLinkIds := [])
    {
      selectedImage := None;
      reminderInput := "";
      hasAutoAnalyzed := false;
      suggestedLinkIds := [];
    }

    /** The remove button of the reminder: the confirmed links stay. */
    method ClearReminder()
      modifies this
      ensures State() == old(State()).(reminderInput := "", suggestedLinkIds := [])
    {
      reminderInput := "";
      suggestedLinkIds := [];
    }

    /** `setReminderToNow`, given the local text of the next full hour. */
    method SetReminderToNow(nextHourLocal: string)
      modifies this
      ensures State() == old(State()).(reminderInput := nextHourLocal)
    {
      reminderInput := nextHourLocal;
    }

    /** `handleBulkSelect`: the image files among those chosen. */
    method HandleBulkSelect(files: seq<ImageFile>)
      modifies this
      ensures |files| > 0 ==> State() == old(State()).(bulkFiles := Filter(files, IsImageFile))
      ensures |files| == 0 ==> State() == old(State())
    {
      if |files| > 0 {
        bulkFiles := Filter(files, IsImageFile);
      }
    }

    /** `handleBulkSubmit`: the files handed to `onBulkSave`, if any. */
    method HandleBulkSubmit(hasBulkSave: bool) returns (saved: Option<seq<ImageFile>>)
      ensures saved.Some? <==> hasBulkSave && |bulkFiles| > 0
      ensures saved.Some? ==> saved.value == bulkFiles
    {
      saved := if hasBulkSave && |bulkFiles| > 0 then Some(bulkFiles) else None;
    }

    /** `handlePaste`: the first clipboard entry that is an image with a file
        becomes the selected image; the result tells whether the default
        paste was prevented. */
    method HandlePaste(items: seq<ClipItem>) returns (prevented: bool)
      modifies this
      ensures prevented <==> FirstPastedImage(items) >= 0
      ensures prevented ==> State() == old(State()).(activeType := IMAGE, selectedImage := items[FirstPastedImage(items)].file,
                                                     hasAutoAnalyzed := false)
      ensures !prevented ==> State() == old(State())
    {
      var i := 0;
      while i < |items|
        invariant 0 <= i <= |items|
        invariant forall k :: 0 <= k < i ==> !PastesImage(items[k])
      {
        if Contains(items[i].kind, "image") {
          var blob := items[i].file;
          if blob.Some? {
            activeType := IMAGE;
            selectedImage := blob;
            hasAutoAnalyzed := false;
            return true;
          }
        }
        i := i + 1;
      }
      return false;
    }

    /** The microphone button; the transcription arrives later through
        `FinishTranscription`. */
    method ToggleListening()
      modifies this
      ensures State() == old(State()).(isListening := !old(isListening))
    {
      isListening := !isListening;
    }

    /** The timer callback of `toggleListening`. */
    method FinishTranscription()
      modifies this
      ensures State() == old(State()).(content := old(content) + (if old(content) != "" then " " else "") + SimulatedTranscript,
                                       isListening := false)
    {
      content := content + (if content != "" then " " else "") + SimulatedTranscript;
      isListening := false;
    }

    method StartAnalysis()
      modifies this
      ensures State() == Started(old(State()))
    {
      isAnalyzing := true;
      suggestedLinkIds := [];
      confirmedLinkIds := [];
    }

    method AbortAnalysis()
      modifies this
      ensures State() == Aborted(old(State()))
    {
      isCheckingLinks := false;
      isAnalyzing := false;
    }

    method MergeResult(v: Json)
      requires Valid()
      modifies this
      ensures Valid()
      ensures State() == Merged(old(State()), v)
    {
      var newContent := AnalysisText(v);
      if newContent != "" {
        content := MergeAnalysis(content, newContent);
      }
      if |AnalysisTags(v)| > 0 {
        tags := MergeTags(tags, AnalysisTags(v));
      }
    }

    method SuggestLinks(env: Env, v: Json, base: FormState, now: int)
      modifies this
      ensures State() == Linked(old(State()), base, env, Connector(env, memories, apiKey), |memories| > 0, v, now)
      ensures tags == old(tags)
    {
      var iso := ReminderIso(v);
      if iso.Some? {
        var date := env.parseDate(iso.value);
        if date.Some? {
          reminderInput := env.localInput(date.value);
          var temp := TempMemory(base, v, date.value, now);
          LookUpLinks(env, temp);
          assert Connector(env, memories, apiKey)(temp) == FindConnections(env, temp, memories, apiKey);
        }
      }
    }

    method LookUpLinks(env: Env, temp: Memory)
      modifies this
      ensures State() == LinkLookup(old(State()), |memories| > 0, FindConnections(env, temp, memories, apiKey))
    {
      if |memories| > 0 {
        isCheckingLinks := true;
        var links := FindConnections(env, temp, memories, apiKey);
        if links.Done? {
          ShowLinks(links.value);
        }
      }
    }

    method ShowLinks(ids: seq<string>)
      modifies this
      ensures State() == old(State()).(suggestedLinkIds := ids, confirmedLinkIds := ids, isCheckingLinks := false)
    {
      suggestedLinkIds, confirmedLinkIds, isCheckingLinks := ids, ids, false;
    }

    method FinishAnalysis()
      modifies this
      ensures State() == Finished(old(State()))
      ensures tags == old(tags)
    {
      hasAutoAnalyzed := true;
      isAnalyzing := false;
    }

    /** `runAnalysis(text, file)`: nothing without text or file; otherwise the
        steps of its `try`, `catch` and `finally` blocks. */
    method RunAnalysis(env: Env, text: string, file: Option<ImageFile>, now: int)
      requires Valid()
      modifies this
      ensures Valid()
      ensures text == "" && file.None? ==> State() == old(State())
      ensures text != "" || file.Some? ==>
                State() == Analyzed(old(State()), AnalyzeContent(env, text, file, apiKey), env,
                                    Connector(env, memories, apiKey), |memories| > 0, now)
    {
      if text == "" && file.None? {
        return;
      }
      StartAnalysis();
      var result := AnalyzeContent(env, text, file, apiKey);
      if result.Threw? || result.value == JNull {
        AbortAnalysis();
        return;
      }
      ApplyAnalysis(env, result.value, now);
    }

    /** The rest of the `try` block once an analysis came back, and the
        `finally` block. */
    method ApplyAnalysis(env: Env, v: Json, now: int)
      requires Valid()
      modifies this
      ensures Valid()
      ensures State() == Finished(Linked(Merged(old(State()), v), old(State()), env,
                                         Connector(env, memories, apiKey), |memories| > 0, v, now))
    {
      var base := State();
      MergeResult(v);
      SuggestLinks(env, v, base, now);
      FinishAnalysis();
    }

    method HandleAnalyzeClick(env: Env, now: int)
      requires Valid()
      modifies this
      ensures Valid()
      ensures old(content) == "" && old(selectedImage).None? ==> State() == old(State())
      ensures old(content) != "" || old(selectedImage).Some? ==>
                State() == Analyzed(old(State()), AnalyzeContent(env, old(content), old(selectedImage), apiKey), env,
                                    Connector(env, memories, apiKey), |memories| > 0, now)
    {
      RunAnalysis(env, content, selectedImage, now);
    }

    /** The effect watching `selectedImage`. */
    method ImageEffect(env: Env, now: int)
      requires Valid()
      modifies this
      ensures Valid()
      ensures old(selectedImage.Some? && !hasAutoAnalyzed && !isAnalyzing) ==>
                State() == Analyzed(old(State()), AnalyzeContent(env, old(content), old(selectedImage), apiKey), env,
                                    Connector(env, memories, apiKey), |memories| > 0, now)
      ensures !old(selectedImage.Some? && !hasAutoAnalyzed && !isAnalyzing) ==> State() == old(State())
    {
      if selectedImage.Some? && !hasAutoAnalyzed && !isAnalyzing {
        RunAnalysis(env, content, selectedImage, now);
      }
    }

    /** The effect watching the content of a video memory: a bare http(s)
        link is analysed (after its debounce timer, here at once). */
    method VideoEffect(env: Env, now: int)
      requires Valid()
      modifies this
      ensures Valid()
      ensures var armed := old(activeType == VIDEO_DESC && !hasAutoAnalyzed && !isAnalyzing);
              var url := Trim(old(content));
              && (armed && url != "" && IsHttpUrl(url) ==>
                    State() == Analyzed(old(State()), AnalyzeContent(env, url, None, apiKey), env,
                                        Connector(env, memories, apiKey), |memories| > 0, now))
              && (!(armed && url != "" && IsHttpUrl(url)) ==> State() == old(State()))
    {
      if activeType == VIDEO_DESC && !hasAutoAnalyzed && !isAnalyzing {
        var trimmed := Trim(content);
        if trimmed == "" {
          hasAutoAnalyzed := false;
        } else if IsHttpUrl(trimmed) {
          RunAnalysis(env, trimmed, None, now);
        }
      }
    }

    /** `handleSubmit`: nothing for a blank note without an image; otherwise
        the fields handed to `onSave`, the reminder parsed from its input. */
    method HandleSubmit(parseDate: string -> Option<int>) returns (saved: Option<Submission>)
      ensures saved.None? <==> IsBlank(content) && selectedImage.None?
      ensures saved.Some? ==>
                && saved.value.kind == activeType && saved.value.content == content
                && saved.value.tags == tags && saved.value.image == selectedImage
                && saved.value.links == confirmedLinkIds
                && saved.value.reminder == (if reminderInput != "" then parseDate(reminderInput) else None)
    {
      if |Trim(content)| == 0 && selectedImage.None? {
        return None;
      }
      var reminder := if reminderInput != "" then parseDate(reminderInput) else None;
      saved := Some(Submission(activeType, content, tags, selectedImage, reminder, confirmedLinkIds));
    }

    method ToggleLinkSelection(id: string)
      modifies this
      ensures State() == old(State()).(confirmedLinkIds := ToggleId(old(confirmedLinkIds), id))
    {
      confirmedLinkIds := ToggleId(confirmedLinkIds, id);
    }

    method ClearDraft(newType: MemoryType)
      modifies this
      ensures State() == old(State()).(activeType := newType, isBulkMode := false, isFeedbackMode := false,
                                       content := "", tags := [], selectedImage := None)
    {
      ClearMode(newType);
      ClearNote();
    }

    method ClearMode(newType: MemoryType)
      modifies this
      ensures State() == old(State()).(activeType := newType, isBulkMode := false, isFeedbackMode := false)
    {
      activeType := newType;
      isBulkMode := false;
      isFeedbackMode := false;
    }

    method ClearNote()
      modifies this
      ensures State() == old(State()).(content := "", tags := [], selectedImage := None)
    {
      content := "";
      tags := [];
      selectedImage := None;
    }

    method ClearInputs()
      modifies this
      ensures State() == old(State()).(reminderInput := "", tagInput := "", bulkFiles := [], hasAutoAnalyzed := false,
                                       suggestedLinkIds := [], confirmedLinkIds := [])
    {
      ClearFields();
      ClearLinks();
    }

    method ClearFields()
      modifies this
      ensures State() == old(State()).(reminderInput := "", tagInput := "", bulkFiles := [])
    {
      reminderInput := "";
      tagInput := "";
      bulkFiles := [];
    }

    method ClearLinks()
      modifies this
      ensures State() == old(State()).(hasAutoAnalyzed := false, suggestedLinkIds := [], confirmedLinkIds := [])
    {
      hasAutoAnalyzed := false;
      suggestedLinkIds := [];
      confirmedLinkIds := [];
    }

    /** `resetFormState(newType)`: back to the initial form with the given
        kind; the listening and analysis flags are kept. */
    method ResetFormState(newType: MemoryType)
      modifies this
      ensures Valid()
      ensures State() == Initial.(activeType := newType, isListening := old(isListening),
                                  isAnalyzing := old(isAnalyzing), isCheckingLinks := old(isCheckingLinks))
    {
      ClearDraft(newType);
      ClearInputs();
    }

    method ActivateBulkMode()
      modifies this
      ensures Valid()
      ensures State() == Initial.(activeType := IMAGE, isBulkMode := true, isListening := old(isListening),
                                  isAnalyzing := old(isAnalyzing), isCheckingLinks := old(isCheckingLinks))
    {
      ResetFormState(IMAGE);
      isBulkMode := true;
    }

    method SetFeedbackMode(mode: bool, newTags: seq<string>)
      modifies this
      ensures State() == old(State()).(isBulkMode := false, isFeedbackMode := mode, hasAutoAnalyzed := false,
                                       tags := newTags)
    {
      isBulkMode := false;
      isFeedbackMode := mode;
      hasAutoAnalyzed := false;
      tags := newTags;
    }

    /** `toggleFeedbackMode`: entering forces a text note and adds the
        feedback tag once; leaving removes it. */
    method ToggleFeedbackMode()
      requires Valid()
      modifies this
      ensures Valid()
      ensures !old(isFeedbackMode) ==>
                State() == old(State()).(isBulkMode := false, isFeedbackMode := true, hasAutoAnalyzed := false,
                                         activeType := TEXT, tags := WithFeedback(old(tags)))
      ensures old(isFeedbackMode) ==>
                State() == old(State()).(isBulkMode := false, isFeedbackMode := false, hasAutoAnalyzed := false,
                                         tags := WithoutFeedback(old(tags)))
    {
      var newMode := !isFeedbackMode;
      var newTags := if newMode then WithFeedback(tags) else WithoutFeedback(tags);
      if !newMode {
        FilterNoDup(tags, x => x != FeedbackTag);
      }
      SetFeedbackMode(newMode, newTags);
      if newMode {
        activeType := TEXT;
      }
    }
  }
}
