/** The application shell (App.tsx): the memory list, the search box, the
    current screen and the settings, and the handlers the screens call back
    into. Persistence calls are parameters: the shell updates its state the
    same way whether they succeed or throw. */
module AppShell {
  import opened Util
  import opened Numbers
  import opened Types
  import opened CortexService
  import AddMemoryForm

  /** The settings before any are loaded. */
  const DefaultSettings := AppSettings("", "", "gemini-2.5-flash", Friendly, false, 30, true, true, true, System)

  /** The defaults name no user and no key, use the fast model without a
      thinking budget, and keep media for thirty days. */
  lemma DefaultSettingsShape()
    ensures DefaultSettings.userName == "" && IsBlank(DefaultSettings.apiKey)
    ensures DefaultSettings.aiModel == FlashModel && ThinkingBudget(DefaultSettings.aiModel).None?
    ensures DefaultSettings.mediaRetentionDays == 30
  {
    assert AllSpace(DefaultSettings.apiKey);
    assert DefaultSettings.aiModel[7] != ThinkingModel[7];
  }

  // -------------------------------------------------------------- search

  predicate SomeTagContains(tags: seq<string>, q: string) {
    exists k :: 0 <= k < |tags| && Contains(ToLower(tags[k]), q)
  }

  /** Whether a memory answers the lower-cased query `q`: its content, one
      of its tags or its type contains it, ignoring case. */
  predicate Matches(m: Memory, q: string) {
    Contains(ToLower(m.content), q) || SomeTagContains(m.tags, q) || Contains(ToLower(m.kind.Name()), q)
  }

  /** `filteredMemories`: everything for a blank query, otherwise the
      memories that match the lower-cased query (untrimmed), in order. */
  function FilterMemories(memories: seq<Memory>, query: string): (r: seq<Memory>)
    ensures IsBlank(query) ==> r == memories
    ensures IsSubseq(r, memories) && |r| <= |memories|
    ensures forall m :: m in r <==> m in memories && (IsBlank(query) || Matches(m, ToLower(query)))
    ensures forall m :: multiset(r)[m] == if IsBlank(query) || Matches(m, ToLower(query)) then multiset(memories)[m] else 0
  {
    if IsBlank(query) then
      IsSubseqRefl(memories);
      memories
    else
      var q := ToLower(query);
      var keep := m => Matches(m, q);
      FilterIsSubseq(memories, keep);
      forall m ensures multiset(Filter(memories, keep))[m] == if keep(m) then multiset(memories)[m] else 0 {
        FilterCount(memories, keep, m);
      }
      Filter(memories, keep)
  }

  lemma {:induction false} IsSubseqRefl<T>(xs: seq<T>)
    ensures IsSubseq(xs, xs)
  {
    if xs != [] {
      IsSubseqRefl(xs[1..]);
    }
  }

  /** A query that starts with a space is found only where the text has one. */
  lemma {:induction false} SpaceQueryNeedsSpace(s: string, q: string)
    requires |q| > 0 && q[0] == ' '
    requires forall k :: 0 <= k < |s| ==> s[k] != ' '
    ensures !Contains(ToLower(s), q)
  {
    var t := ToLower(s);
    forall i | 0 <= i <= |t| - |q| ensures !MatchAt(t, q, i) {
      assert t[i..i + |q|][0] == t[i] == LowerChar(s[i]) != ' ';
    }
  }

  lemma LowerOfLower(s: string)
    requires forall k :: 0 <= k < |s| ==> !('A' <= s[k] <= 'Z')
    ensures ToLower(s) == s
  {
  }

  lemma NotBlankAt(s: string, k: nat)
    requires k < |s| && !IsSpace(s[k])
    ensures !IsBlank(s)
  {
    assert !AllSpace(s);
  }

  /** A non-blank query finds every memory whose content, one of whose
      tags, or whose type contains it once both are lower-cased. */
  lemma QueryFindsInfix(memories: seq<Memory>, m: Memory, query: string)
    requires m in memories && !IsBlank(query)
    ensures Contains(ToLower(m.content), ToLower(query)) ==> m in FilterMemories(memories, query)
    ensures (exists k :: 0 <= k < |m.tags| && Contains(ToLower(m.tags[k]), ToLower(query))) ==>
              m in FilterMemories(memories, query)
    ensures Contains(ToLower(m.kind.Name()), ToLower(query)) ==> m in FilterMemories(memories, query)
  {
  }

  /** The query is not trimmed before matching: the same memory does not
      answer " b", whose space is not in its text. */
  lemma QueryKeepsSpaces(m: Memory)
    requires m.content == "ab" && m.tags == [] && m.kind == TEXT
    ensures m !in FilterMemories([m], " b")
  {
    var q := " b";
    LowerOfLower(q);
    NotBlankAt(q, 1);
    SpaceQueryNeedsSpace(m.content, q);
    SpaceQueryNeedsSpace(m.kind.Name(), q);
    assert !SomeTagContains(m.tags, q);
    assert !Matches(m, ToLower(q));
  }

  /** The count line of the home screen. It tests the raw query, so a query
      of white space only reads "n of n entries found.". */
  function EntriesLabel(total: nat, shown: nat, query: string): (r: string)
    ensures total == 0 ==> r == "No memories yet. Start by adding one."
    ensures total > 0 && query != "" ==> r == NatToString(shown) + " of " + NatToString(total) + " entries found."
    ensures total > 0 && query == "" ==> r == NatToString(shown) + " entries collected."
  {
    if total == 0 then "No memories yet. Start by adding one."
    else NatToString(shown) + (if query != "" then " of " + NatToString(total) else "")
         + " entries" + (if query != "" then " found" else " collected") + "."
  }

  /** The count line reads back the number of memories shown. */
  lemma EntriesLabelCount(total: nat, shown: nat, query: string)
    requires total > 0
    ensures ParseInt(EntriesLabel(total, shown, query)) == Some(shown)
  {
    var rest := if query != "" then " of " + NatToString(total) + " entries found." else " entries collected.";
    assert rest[0] == ' ';
    assert EntriesLabel(total, shown, query) == NatToString(shown) + rest;
    ParseIntOfPrefix(shown, rest);
  }

  // ------------------------------------------------------------- saving

  /** The memory `handleSaveMemory` builds, as the handler is written: its
      parameters stop at `reminderTime`, so the confirmed links the form
      passes as a sixth argument are dropped. */
  function NewMemoryAsWritten(s: AddMemoryForm.Submission, now: int, objectUrl: ImageFile -> string): (m: Memory)
    ensures m.id == IntToString(now) && m.timestamp == now
    ensures m.kind == s.kind && m.content == s.content && m.tags == s.tags && m.reminderTimestamp == s.reminder
    ensures m.imageUrl.Some? <==> s.image.Some?
    ensures s.image.Some? ==> m.imageUrl == Some(objectUrl(s.image.value))
    ensures m.linkedMemoryIds.None? && m.isAnalyzing.None? && m.isPinned.None?
  {
    Memory(IntToString(now), s.kind, s.content, now, s.tags,
           if s.image.Some? then Some(objectUrl(s.image.value)) else None, s.reminder, None, None, None)
  }

  /** Links confirmed in the form never reach the saved memory. */
  lemma SavedMemoryLosesLinks(s: AddMemoryForm.Submission, now: int, objectUrl: ImageFile -> string)
    requires s.links != []
    ensures NewMemoryAsWritten(s, now, objectUrl).linkedMemoryIds != Some(s.links)
    ensures NewMemoryAsWritten(s, now, objectUrl).linkedMemoryIds.None?
  {
  }

  /** The memory with the confirmed links kept, as the form intends. */
  function NewMemory(s: AddMemoryForm.Submission, now: int, objectUrl: ImageFile -> string): (m: Memory)
    ensures m.id == IntToString(now) && m.timestamp == now
    ensures m.kind == s.kind && m.content == s.content && m.tags == s.tags && m.reminderTimestamp == s.reminder
    ensures m.linkedMemoryIds == Some(s.links)
    ensures m.imageUrl.Some? <==> s.image.Some?
    ensures m == NewMemoryAsWritten(s, now, objectUrl).(linkedMemoryIds := Some(s.links))
  {
    Memory(IntToString(now), s.kind, s.content, now, s.tags,
           if s.image.Some? then Some(objectUrl(s.image.value)) else None, s.reminder, Some(s.links), None, None)
  }

  /** The new memory's id is its creation time, which reads back with
      `parseInt`. */
  lemma NewMemoryIdIsTime(s: AddMemoryForm.Submission, now: int, objectUrl: ImageFile -> string)
    ensures ParseInt(NewMemoryAsWritten(s, now, objectUrl).id) == Some(now)
    ensures ParseInt(NewMemory(s, now, objectUrl).id) == Some(now)
  {
    ParseIntOfIntToString(now);
  }

  /** The memories without those whose id is `id`. */
  function WithoutId(memories: seq<Memory>, id: string): (r: seq<Memory>)
    ensures IsSubseq(r, memories)
    ensures forall m :: m in r <==> m in memories && m.id != id
    ensures forall m: Memory :: m.id != id ==> multiset(r)[m] == multiset(memories)[m]
  {
    var keep := (m: Memory) => m.id != id;
    FilterIsSubseq(memories, keep);
    forall m: Memory | m.id != id ensures multiset(Filter(memories, keep))[m] == multiset(memories)[m] {
      FilterCount(memories, keep, m);
    }
    Filter(memories, keep)
  }

  class App {
    var memories: seq<Memory>
    var currentScreen: AppScreen
    var viewMode: ViewMode
    var isDarkMode: bool
    var isCortexOpen: bool
    var searchQuery: string
    var settings: AppSettings

    constructor ()
      ensures memories == [] && currentScreen == Home && viewMode == Timeline && !isDarkMode
      ensures !isCortexOpen && searchQuery == "" && settings == DefaultSettings
    {
      memories := [];
      currentScreen := Home;
      viewMode := Timeline;
      isDarkMode := false;
      isCortexOpen := false;
      searchQuery := "";
      settings := DefaultSettings;
    }

    /** The list the screens are given. */
    function Visible(): (r: seq<Memory>)
      reads this
      ensures IsBlank(searchQuery) ==> r == memories
      ensures IsSubseq(r, memories)
      ensures forall m :: m in r <==> m in memories && (IsBlank(searchQuery) || Matches(m, ToLower(searchQuery)))
      ensures forall m :: multiset(r)[m] == if IsBlank(searchQuery) || Matches(m, ToLower(searchQuery)) then multiset(memories)[m] else 0
    {
      FilterMemories(memories, searchQuery)
    }

    /** `loadData`: the stored memories replace the list; stored settings,
        when there are any, replace the defaults. A failed memory load skips
        the settings load too. */
    method LoadData(loadedMemories: Outcome<seq<Memory>>, loadedSettings: Outcome<Option<AppSettings>>)
      modifies this`memories, this`settings
      ensures loadedMemories.Threw? ==> memories == old(memories) && settings == old(settings)
      ensures loadedMemories.Done? ==> memories == loadedMemories.value
      ensures loadedMemories.Done? && loadedSettings.Done? && loadedSettings.value.Some? ==>
                settings == loadedSettings.value.value
      ensures loadedMemories.Done? && (loadedSettings.Threw? || loadedSettings.value.None?) ==>
                settings == old(settings)
    {
      if loadedMemories.Threw? {
        return;
      }
      memories := loadedMemories.value;
      if loadedSettings.Done? && loadedSettings.value.Some? {
        settings := loadedSettings.value.value;
      }
    }

    /** The colour-scheme effect: a dark system preference turns dark mode on. */
    method DetectColorScheme(prefersDark: bool)
      modifies this`isDarkMode
      ensures isDarkMode == (old(isDarkMode) || prefersDark)
    {
      if prefersDark {
        isDarkMode := true;
      }
    }

    /** `handleSaveMemory`: the new memory, built as the handler builds it,
        goes first and the home screen shows. `persisted` says whether
        `createMemory` resolved; the `try` and the `catch` branch do the same,
        so the outcome does not matter. */
    method HandleSaveMemory(s: AddMemoryForm.Submission, now: int, objectUrl: ImageFile -> string, persisted: bool)
      modifies this`memories, this`currentScreen
      ensures memories == [NewMemoryAsWritten(s, now, objectUrl)] + old(memories)
      ensures currentScreen == Home
    {
      var m := NewMemoryAsWritten(s, now, objectUrl);
      if persisted {
        memories := [m] + memories;
        currentScreen := Home;
      } else {
        memories := [m] + memories;
        currentScreen := Home;
      }
    }

    /** `handleSaveSettings`: the settings apply and the home screen shows.
        `persisted` says whether `updateSettings` resolved; both branches of
        the `try`/`catch` do the same, so the outcome does not matter. */
    method HandleSaveSettings(newSettings: AppSettings, persisted: bool)
      modifies this`settings, this`currentScreen
      ensures settings == newSettings && currentScreen == Home
    {
      if persisted {
        settings := newSettings;
        currentScreen := Home;
      } else {
        settings := newSettings;
        currentScreen := Home;
      }
    }

    /** A card's delete button removes every memory with that card's id from
        the whole list, keeping the rest in order. */
    method DeleteMemory(id: string)
      modifies this`memories
      ensures memories == WithoutId(old(memories), id)
      ensures forall k :: 0 <= k < |memories| ==> memories[k].id != id
    {
      memories := WithoutId(memories, id);
      forall k | 0 <= k < |memories| ensures memories[k].id != id {
        assert memories[k] in memories;
      }
    }

    /** Imported memories go before the existing ones. */
    method ImportMemories(imported: seq<Memory>)
      modifies this`memories
      ensures memories == imported + old(memories)
    {
      memories := imported + memories;
    }

    method ClearMemories()
      modifies this`memories
      ensures memories == []
    {
      memories := [];
    }

    method SetSearchQuery(q: string)
      modifies this`searchQuery
      ensures searchQuery == q
    {
      searchQuery := q;
    }

    method SetScreen(screen: AppScreen)
      modifies this`currentScreen
      ensures currentScreen == screen
    {
      currentScreen := screen;
    }

    method SetViewMode(mode: ViewMode)
      modifies this`viewMode
      ensures viewMode == mode
    {
      viewMode := mode;
    }

    method ToggleDarkMode()
      modifies this`isDarkMode
      ensures isDarkMode == !old(isDarkMode)
    {
      isDarkMode := !isDarkMode;
    }

    /** The assistant button opens and closes the chat; the chat's own close
        button closes it. */
    method ToggleCortex()
      modifies this`isCortexOpen
      ensures isCortexOpen == !old(isCortexOpen)
    {
      isCortexOpen := !isCortexOpen;
    }

    method CloseCortex()
      modifies this`isCortexOpen
      ensures !isCortexOpen
    {
      isCortexOpen := false;
    }
  }

  /** A saved memory is shown at the top of an unfiltered list, as written
      and as corrected. */
  lemma SavedMemoryShownFirst(memories: seq<Memory>, s: AddMemoryForm.Submission, now: int, objectUrl: ImageFile -> string)
    ensures FilterMemories([NewMemoryAsWritten(s, now, objectUrl)] + memories, "")[0] == NewMemoryAsWritten(s, now, objectUrl)
    ensures FilterMemories([NewMemory(s, now, objectUrl)] + memories, "")[0] == NewMemory(s, now, objectUrl)
  {
    assert IsBlank("");
  }
}
