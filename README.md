# Nomorize in Dafny

Nomorize is a personal memory app. The user captures notes, voice
transcripts, images, video links and OCR text as *memories*. An assistant
called Cortex analyses each capture: it summarises it, suggests tags,
detects reminders and proposes links to earlier memories. The user can chat
with Cortex about the memories, browse them as a timeline, a grid or a
calendar, and export or import them as a JSON backup.

This project models the app's logic and proves properties of it. One module
corresponds to each source file:

- `Types` (types.ts) holds the records and enumerations.
- `CortexService` (services/cortexService.ts) models the requests sent to the
  language model and everything done with the replies:
  - tolerant JSON extraction and its fallbacks;
  - the link-context and briefing-context filters;
  - the `||RELATED_IDS:[…]||` side channel;
  - the "Sources" list;
  - the tone, thinking-budget and API-key rules.
- `AddMemoryForm` models the capture form as a class with the form's fields.
  Its tag, analysis-merge and link rules are functions with lemmas.
- `CortexChat` models the chat panel as a class with its transcript.
- `AppShell` (App.tsx) models the application shell as a class. It includes
  the search filter, and the save, delete, import and clear handlers.
- `DatabaseService` models the row and record converters, the query builder
  and the settings renaming.
- `CalendarView` models the month grid:
  - ECMAScript date arithmetic, defined from first principles (section 21.4.1
    of ECMA-262: day numbers, years, months and weekdays);
  - month navigation and the per-day filter;
  - the rendering loops, as a method proved against the grid function.
- `SettingsScreen` models the settings form as a class, plus the backup
  envelope and the import acceptance rule.
- `Util`, `Numbers` and `Json` model the JavaScript built-ins the
  application relies on:
  - `trim`, `indexOf`, `replace` with `/g`, `toLowerCase` and `new Set`;
  - `parseInt` and `Number.prototype.toString`;
  - JSON values with property access, truthiness and `||`.

What the program cannot see is passed in as a parameter:

- the language model (`Env.gateway`, a function from a request to a reply
  or a failure);
- `JSON.parse` (a partial function from text to values);
- the SDK's acceptance of a key;
- the file reader, date parsing and local date formatting;
- the clock (a `now` argument);
- the browser's answers to `confirm` and `matchMedia`.

Prompts are structured values that record which data goes into them, not
their wording.

## Model

| member | source | states |
|---|---|---|
| Types.ParseMemoryType | types.ts:2-8 | a stored type string names a variant exactly when it equals that variant's value |
| Types.MemoryTypeNameInjective | types.ts:2-8 | the five values are pairwise distinct |
| Types.ParseSender | types.ts:25 | a sender is 'user' or 'cortex' and nothing else |
| Types.ParseAiTone | types.ts:35 | a tone is one of the five values and nothing else |
| Types.ParseTheme | types.ts:41 | a theme is one of the three values and nothing else |
| Json.Prop | components/SettingsScreen.tsx:57 | property access throws exactly on `null` and finds a value exactly for an object holding the key |
| Json.OrElse | services/cortexService.ts:182 | `v.key` with a `||` default keeps the value exactly when it is truthy |
| Json.Strings | services/cortexService.ts:335 | the identifiers read from an array are exactly its string elements |
| Numbers.ParseIntOfIntToString | services/databaseService.ts:29-45 | `parseInt` of the decimal string of an integer is that integer |
| Numbers.ParseIntOfPrefix | components/CortexChat.tsx:81 | `parseInt` reads the leading number of a text and stops at the first non-digit |
| CortexService.ChooseKey | services/cortexService.ts:29-31 | the custom key is used exactly when it is present and non-blank after trimming; otherwise the environment key |
| CortexService.GetClient | services/cortexService.ts:29-33 | building the client throws exactly when the SDK rejects the chosen key; otherwise the client carries the chosen key |
| CortexService.BraceSlice | services/cortexService.ts:91-99 | with no `{` or no `}` the whole text is parsed; otherwise the text from the first `{` through the last `}` (starting with `{`, ending with `}`), and the swapped `substring` range when the last `}` comes before the first `{`; the slice never reintroduces a fence |
| CortexService.AnalysisFallback | services/cortexService.ts:100-106 | the fallback object has `analysis` = the input, empty `tags` and no `reminderISO` |
| CortexService.Unfenced | services/cortexService.ts:89 | after removing every "```json" and then every "```", and trimming, no fence remains and the text is trimmed |
| CortexService.Candidate | services/cortexService.ts:89-99 | the text handed to `JSON.parse` contains no fence |
| CortexService.UnfencedPlain | services/cortexService.ts:89 | a reply with no backtick is only trimmed |
| CortexService.UnfencedFence | services/cortexService.ts:89 | a reply that is a ```json fenced block gives back the fenced text, trimmed |
| CortexService.CandidateOfFencedObject | services/cortexService.ts:89-99 | an object literal without backticks, wrapped in a ```json fence, is exactly the text that reaches `JSON.parse` |
| CortexService.ReadAnalysis | services/cortexService.ts:87-107 | a failed call gives the fallback; an empty reply is read as `{}`, giving its parse or the fallback; a non-empty reply whose candidate parses gives that parse; one whose candidate does not parse gives the fallback |
| CortexService.AnalyzeContent | services/cortexService.ts:38-107 | the call throws to its caller exactly when building the client throws; otherwise the result is the reply to the analysis request, read by ReadAnalysis |
| CortexService.EmptyReplyIsEmptyObject | services/cortexService.ts:87-96 | an empty reply is parsed as `{}` itself |
| CortexService.AnalyzeOutcomes | services/cortexService.ts:38-107 | with a working client the call never throws; a failed model call gives the fallback; an empty reply gives the parse of `{}`; a non-empty reply whose candidate parses gives exactly that parse; an unparseable candidate gives the fallback |
| CortexService.SummarizeSelection | services/cortexService.ts:113-139 | the request carries every selected memory in order and their count; the result is the reply text, "Could not generate summary." for an empty reply, "Error generating summary." for a failed call; never empty |
| CortexService.LinkContextExact | services/cortexService.ts:150-154 | the link context holds no entry with the new memory's id, every snippet has at most 100 characters, and every other memory is described |
| CortexService.SnippetIsPrefix | services/cortexService.ts:153 | a snippet is the first 100 characters of the content (all of it when shorter) |
| CortexService.RelatedIds | services/cortexService.ts:181-182 | no parse, a `null` document or a missing `relatedIds` give `[]` |
| CortexService.RelatedIdsOfReply | services/cortexService.ts:181-182 | a reply `{"relatedIds": ids}` yields exactly `ids` |
| CortexService.FindConnections | services/cortexService.ts:144-186 | fewer than 3 existing memories give `[]` without a client; otherwise the call throws exactly when building the client throws, and with a client a failed model call gives `[]` and a reply gives the ids RelatedIds reads from it, an empty reply read as `{}` |
| CortexService.ConnectionsReadReply | services/cortexService.ts:151-182 | when the model answers `{"relatedIds": ids}` to the request built from the filtered context, the result is `ids` |
| CortexService.BriefContextExact | services/cortexService.ts:195-198 | the briefing context leaves out the target memory and describes every other memory |
| CortexService.GenerateBriefing | services/cortexService.ts:192-242 | the request names the user ("the user" when none) and the target's content; the result is the reply text, or "Reminder: " + the content for an empty reply or a failed call |
| CortexService.ToneInstruction | services/cortexService.ts:271-277 | a string that is not one of the five tone names gets "Be friendly and helpful."; each of the five tones gets an instruction other than that default |
| CortexService.ThinkingBudget | services/cortexService.ts:315-318 | a thinking budget of 16000 is attached exactly for `gemini-3-pro-preview` |
| CortexService.ChatContext | services/cortexService.ts:247-256 | no memories give the "No memories recorded" placeholder; otherwise one entry per memory in order, with its id and content, and a reminder part exactly when the reminder is present and non-zero |
| CortexService.ChatPrompt | services/cortexService.ts:258-269 | the prompt is scoped exactly when some memory's id is among the context ids, and then lists those memories in order; the question is always kept |
| CortexService.LazyEnd | services/cortexService.ts:331 | the lazy `.*?` finds the nearest closing bracket and double bar on the same line, or reports there is none |
| CortexService.MarkerFrom | services/cortexService.ts:331-332 | the leftmost marker at or after a position, with the shortest match; none when there is no marker |
| CortexService.FindMarker | services/cortexService.ts:331-332 | `String.match` returns the leftmost, shortest RELATED_IDS marker, or none exactly when no marker occurs |
| CortexService.ExtractRelated | services/cortexService.ts:327-340 | without a marker, or when its array does not parse, the text is kept and the ids are `[]`; otherwise that one occurrence is cut out, the rest is trimmed and the ids are the parsed array |
| CortexService.RelatedTagRoundTrip | services/cortexService.ts:302-336 | an answer followed by the marker the prompt asks for gives back the answer and exactly those ids |
| CortexService.TagIsFirstMarker | services/cortexService.ts:331-332 | the appended marker is the match `String.match` finds |
| CortexService.WebSources | services/cortexService.ts:348-350 | one "• [Web] title: uri" line per chunk with both a web uri and title, in order |
| CortexService.MapSources | services/cortexService.ts:353-355 | one "• [Map] title: uri" line per chunk with both a maps uri and title, in order |
| CortexService.AllSources | services/cortexService.ts:357 | the joined list has no duplicates and holds exactly the web and map lines |
| CortexService.WebSourcesFirst | services/cortexService.ts:357 | the joined list is the web lines once each, in first-occurrence order, followed by the map lines not among them, once each, in first-occurrence order; when the web lines are distinct they come first unchanged |
| CortexService.SourcesPresent | services/cortexService.ts:357-359 | the list is non-empty exactly when some chunk has a complete web or map source |
| CortexService.SourcesBlock | services/cortexService.ts:343-361 | the sources block is empty exactly when no chunk has a complete source, and otherwise "\n\n**Sources:**\n" followed by the lines joined with newlines |
| CortexService.ReplyText | services/cortexService.ts:327-361 | the sources block always ends the text, and what comes before it is the reply (or the fixed text when the reply is empty) with its RELATED_IDS tag cut out and trimmed, as ExtractRelated gives it; the ids are those ExtractRelated finds in the reply, or in the fixed text when the reply is empty; a reply without a marker is kept whole with no ids; an empty reply becomes "I couldn't generate a response." with no ids |
| CortexService.ReplyTextOfTaggedAnswer | services/cortexService.ts:327-361 | an answer followed by the tag the prompt asks for comes back as the answer, then the sources block, with exactly the tagged ids |
| CortexService.NoMarkerWithoutBar | services/cortexService.ts:331-332 | a reply without a `|` holds no RELATED_IDS tag |
| CortexService.GenerateResponse | services/cortexService.ts:320-380 | the call throws exactly when building the client throws; the message is from Cortex with one clock reading as timestamp and id (see Left out); a failed call gives the trouble text and no related ids; a reply gives the extracted text and ids |
| AddMemoryForm.AddTag | components/AddMemoryForm.tsx:69-71 | the trimmed tag ends up in the list; the old tags are kept in order and at most that one tag is appended; nothing else is added |
| AddMemoryForm.AddTagNoDup | components/AddMemoryForm.tsx:69-71 | adding a tag never creates a duplicate |
| AddMemoryForm.RemoveTag | components/AddMemoryForm.tsx:76-78 | the result is an order-preserving subsequence of the tags; the removed tag is gone and every other tag's membership is unchanged |
| AddMemoryForm.RemoveTagCounts | components/AddMemoryForm.tsx:76-78 | every occurrence of the tag is removed and every other tag keeps its count |
| AddMemoryForm.MergeTags | components/AddMemoryForm.tsx:154-157 | the merged tags have no duplicates and are exactly the old and the suggested ones |
| AddMemoryForm.MergeTagsKeepsExisting | components/AddMemoryForm.tsx:155-156 | `new Set` keeps first occurrences, so distinct existing tags stay first and in order |
| AddMemoryForm.WithFeedback | components/AddMemoryForm.tsx:243 | entering feedback mode adds 'feedback' without creating duplicates and adds nothing else |
| AddMemoryForm.WithoutFeedback | components/AddMemoryForm.tsx:245 | leaving it removes 'feedback' and keeps every other tag |
| AddMemoryForm.FeedbackTagOnce | components/AddMemoryForm.tsx:243 | 'feedback' occurs exactly once afterwards |
| AddMemoryForm.FeedbackRoundTrip | components/AddMemoryForm.tsx:236-247 | toggling feedback mode on and off restores distinct tags that lacked 'feedback' |
| AddMemoryForm.ToggleId | components/AddMemoryForm.tsx:210-214 | the id is selected afterwards exactly when it was not before; other ids are untouched |
| AddMemoryForm.ToggleTwiceMembers | components/AddMemoryForm.tsx:210-214 | toggling twice restores membership of every id |
| AddMemoryForm.ToggleTwiceUnselected | components/AddMemoryForm.tsx:210-214 | toggling an unselected id twice restores the list itself |
| AddMemoryForm.Section | components/AddMemoryForm.tsx:145-148 | the marked section ends with the analysis text |
| AddMemoryForm.EndsWithSection | components/AddMemoryForm.tsx:145-148 | content followed by a section ends with the analysis |
| AddMemoryForm.MergeAnalysis | components/AddMemoryForm.tsx:142-151 | the merged content always ends with the new analysis |
| AddMemoryForm.MarkerHasNoNewline | components/AddMemoryForm.tsx:144 | the marker is non-empty and holds no newline |
| AddMemoryForm.FirstMarkerOfSection | components/AddMemoryForm.tsx:144-145 | in content without a marker followed by a section, the first marker is the section's, after the two newlines |
| AddMemoryForm.MergeTwiceMarked | components/AddMemoryForm.tsx:144-145 | merging the same analysis twice equals merging it once when the content already has a marker |
| AddMemoryForm.MergeTwiceAppended | components/AddMemoryForm.tsx:147-148 | the same for trimmed content that gets a section appended |
| AddMemoryForm.MergeTwiceReplaced | components/AddMemoryForm.tsx:150 | the same when the content is replaced by an analysis without a marker |
| AddMemoryForm.MergeIdempotent | components/AddMemoryForm.tsx:142-151 | the merge is idempotent whenever the content has a marker, or is trimmed and the analysis has no marker |
| AddMemoryForm.MergeNotIdempotentUntrimmed | components/AddMemoryForm.tsx:145-148 | untrimmed content that gets a section appended changes again on a second merge, because the second pass trims it |
| AddMemoryForm.MergeNotIdempotentMarkedAnalysis | components/AddMemoryForm.tsx:144-150 | an analysis that itself contains the marker changes again on a second merge |
| AddMemoryForm.MergeReplacesSection | components/AddMemoryForm.tsx:144-145 | an existing section is replaced: the text before the first marker becomes the trimmed old prefix plus two newlines |
| AddMemoryForm.AnalysisText | components/AddMemoryForm.tsx:140 | when `analysis` holds a string the result is that string; in every other case (no object, no key, not a string) it is empty |
| AddMemoryForm.AnalysisTags | components/AddMemoryForm.tsx:154 | the suggested tags are exactly the strings in the `tags` array |
| AddMemoryForm.ReminderIso | components/AddMemoryForm.tsx:159 | a reminder is looked at exactly when `reminderISO` is a non-empty string, and then it is that string |
| AddMemoryForm.FirstPastedImage | components/AddMemoryForm.tsx:101-115 | the loop stops at the first clipboard item whose type contains "image" and that yields a file, or finds none |
| AddMemoryForm.AnalysisClearsSpinner | components/AddMemoryForm.tsx:133-195 | after any analysis run `isAnalyzing` is false and the suggested and confirmed links agree |
| AddMemoryForm.AnalysisFailure | components/AddMemoryForm.tsx:133-195 | a failed analysis (client error, or a `null` result whose property access throws) only clears both link lists, the link check and the spinner |
| AddMemoryForm.LinkedPairsLinks | components/AddMemoryForm.tsx:180-181 | the link step sets the suggested and confirmed lists to the same ids |
| AddMemoryForm.LinkedKeepsDraft | components/AddMemoryForm.tsx:159-188 | the reminder step changes only the reminder input, the two link lists and the link-check flag |
| AddMemoryForm.LookupKeepsDraft | components/AddMemoryForm.tsx:167-183 | the link lookup changes only the two link lists and the link-check flag |
| AddMemoryForm.AnalysisMerges | components/AddMemoryForm.tsx:140-189 | a successful analysis merges content and tags as the rules say, marks the input analysed and keeps the kind and image |
| AddMemoryForm.AnalysisWithoutReminder | components/AddMemoryForm.tsx:159-187 | without a valid reminder date the reminder input is kept and no links are suggested |
| AddMemoryForm.AnalysisWithReminder | components/AddMemoryForm.tsx:159-183 | a valid date sets the reminder input; links are looked up only when there are memories, and then the returned ids are suggested and the link check ends |
| AddMemoryForm.LinkCheckNeverSticks | components/AddMemoryForm.tsx:167-183 | with the real connection finder the link-check flag is cleared |
| AddMemoryForm.FailedAnalysisRearms | components/AddMemoryForm.tsx:186-195 | a failed analysis of a video link leaves the auto-analysis armed and the content unchanged |
| AddMemoryForm.MemoryForm.constructor | components/AddMemoryForm.tsx:15-37 | the form starts in its initial state |
| AddMemoryForm.MemoryForm.HandleAddTag | components/AddMemoryForm.tsx:66-74 | only Enter with a non-blank input acts: the tag is added and the input cleared; otherwise nothing changes |
| AddMemoryForm.MemoryForm.RemoveTagClick | components/AddMemoryForm.tsx:76-78 | only the tags change, by RemoveTag |
| AddMemoryForm.MemoryForm.HandleImageSelect | components/AddMemoryForm.tsx:80-85 | a chosen file becomes the image and re-arms the auto-analysis; no file changes nothing |
| AddMemoryForm.MemoryForm.ClearImage | components/AddMemoryForm.tsx:423 | removing the image also clears the reminder input and the suggestions and re-arms the auto-analysis |
| AddMemoryForm.MemoryForm.ClearReminder | components/AddMemoryForm.tsx:547 | clearing the reminder also clears the suggestions |
| AddMemoryForm.MemoryForm.SetReminderToNow | components/AddMemoryForm.tsx:262-268 | only the reminder input changes, to the local time one hour ahead |
| AddMemoryForm.MemoryForm.HandleBulkSelect | components/AddMemoryForm.tsx:88-93 | the bulk list becomes the chosen files whose type starts with "image/"; no files changes nothing |
| AddMemoryForm.MemoryForm.HandleBulkSubmit | components/AddMemoryForm.tsx:95-99 | the files are handed on exactly when there is a bulk handler and at least one file |
| AddMemoryForm.MemoryForm.HandlePaste | components/AddMemoryForm.tsx:101-115 | a pasted image switches to IMAGE, becomes the image and re-arms the auto-analysis, and the paste is prevented; otherwise nothing changes |
| AddMemoryForm.MemoryForm.ToggleListening | components/AddMemoryForm.tsx:117-121 | only the listening flag flips |
| AddMemoryForm.MemoryForm.FinishTranscription | components/AddMemoryForm.tsx:122-125 | the simulated transcript is appended, after a space when there is content, and listening stops |
| AddMemoryForm.MemoryForm.StartAnalysis | components/AddMemoryForm.tsx:133-135 | the spinner is on and both link lists are cleared |
| AddMemoryForm.MemoryForm.AbortAnalysis | components/AddMemoryForm.tsx:190-195 | the link check and the spinner are cleared |
| AddMemoryForm.MemoryForm.MergeResult | components/AddMemoryForm.tsx:140-157 | content and tags are merged with the analysis result |
| AddMemoryForm.MemoryForm.SuggestLinks | components/AddMemoryForm.tsx:159-188 | the reminder step as the Linked function describes it |
| AddMemoryForm.MemoryForm.LookUpLinks | components/AddMemoryForm.tsx:167-183 | the link lookup runs against the form's memories |
| AddMemoryForm.MemoryForm.ShowLinks | components/AddMemoryForm.tsx:180-182 | the ids become both the suggested and the confirmed links and the link check ends |
| AddMemoryForm.MemoryForm.FinishAnalysis | components/AddMemoryForm.tsx:189-195 | the input is marked analysed and the spinner cleared |
| AddMemoryForm.MemoryForm.RunAnalysis | components/AddMemoryForm.tsx:130-196 | no text and no file change nothing; otherwise the new state is the analysis outcome, whatever the service returns |
| AddMemoryForm.MemoryForm.ApplyAnalysis | components/AddMemoryForm.tsx:140-196 | once a result came back: content and tags merged, the reminder and link step, then the spinner cleared and the auto-analysis mark set; the tag list stays free of duplicates |
| AddMemoryForm.MemoryForm.HandleAnalyzeClick | components/AddMemoryForm.tsx:198-200 | runs the analysis on the current content and image |
| AddMemoryForm.MemoryForm.ImageEffect | components/AddMemoryForm.tsx:43-47 | a new image is analysed only while the auto-analysis is armed and nothing is running |
| AddMemoryForm.MemoryForm.VideoEffect | components/AddMemoryForm.tsx:50-64 | in video mode, a trimmed content that is an http(s) URL without spaces is analysed when armed and idle; otherwise nothing changes |
| AddMemoryForm.MemoryForm.HandleSubmit | components/AddMemoryForm.tsx:202-208 | nothing is saved exactly when the content is blank and there is no image; otherwise kind, content, tags, image, confirmed links and the parsed reminder are handed on |
| AddMemoryForm.MemoryForm.ToggleLinkSelection | components/AddMemoryForm.tsx:210-214 | only the confirmed links change, by ToggleId |
| AddMemoryForm.MemoryForm.ClearDraft | components/AddMemoryForm.tsx:217-222 | kind, modes, content, tags and image are reset |
| AddMemoryForm.MemoryForm.ClearMode | components/AddMemoryForm.tsx:217-219 | kind and the two modes are reset |
| AddMemoryForm.MemoryForm.ClearNote | components/AddMemoryForm.tsx:220-222 | content, tags and image are cleared |
| AddMemoryForm.MemoryForm.ClearInputs | components/AddMemoryForm.tsx:223-228 | reminder, tag input, bulk files, auto-analysis flag and both link lists are reset |
| AddMemoryForm.MemoryForm.ClearFields | components/AddMemoryForm.tsx:223-225 | reminder, tag input and bulk files are cleared |
| AddMemoryForm.MemoryForm.ClearLinks | components/AddMemoryForm.tsx:226-228 | the auto-analysis flag and both link lists are reset |
| AddMemoryForm.MemoryForm.ResetFormState | components/AddMemoryForm.tsx:216-229 | the form returns to its initial state with the chosen kind; only the listening, analysing and link-check flags survive |
| AddMemoryForm.MemoryForm.ActivateBulkMode | components/AddMemoryForm.tsx:231-234 | a reset to IMAGE with bulk mode on |
| AddMemoryForm.MemoryForm.SetFeedbackMode | components/AddMemoryForm.tsx:238-240 | the mode flags and the tags are set |
| AddMemoryForm.MemoryForm.ToggleFeedbackMode | components/AddMemoryForm.tsx:236-247 | entering feedback mode forces TEXT and adds 'feedback'; leaving it removes 'feedback'; both leave bulk mode and re-arm the auto-analysis |
| CortexChat.Greeting | components/CortexChat.tsx:35 | the greeting starts with "Hello", ends with the fixed suffix, and between them holds a space and the name exactly when a name is given |
| CortexChat.GreetingNamesUser | components/CortexChat.tsx:35 | with a name, the greeting is "Hello", a space, the name, then the suffix |
| CortexChat.GreetingInjective | components/CortexChat.tsx:35-59 | different names give different greetings |
| CortexChat.ActionRequest | components/CortexChat.tsx:73-82 | 'summarize' asks about `[memoryId]` with the fixed prompt; 'summarize_batch' asks about the given ids with the batch prompt for their count |
| CortexChat.BatchTextCount | components/CortexChat.tsx:81 | the batch prompt states the number of selected memories |
| CortexChat.ActionWithoutContext | components/CortexChat.tsx:84 | the context is empty exactly for a batch action with no ids |
| CortexChat.ToneOrDefault | components/CortexChat.tsx:196 | a set tone is passed on unchanged; an unset tone becomes 'friendly', whose instruction is the warm one |
| CortexChat.ModelOrDefault | components/CortexChat.tsx:196 | an unset model falls back to the service default `gemini-2.5-flash`, which gets no thinking budget |
| CortexChat.Suggestions | components/CortexChat.tsx:301-313 | only Cortex messages with related ids show suggestions; they are the related ids, in order and with their repetitions, that name a memory in the session |
| CortexChat.UserMessage | components/CortexChat.tsx:184-189 | the user's message holds the typed text, is sent by the user, has no related ids, and carries one clock reading (see Left out) as timestamp and, read back with `parseInt`, as id |
| CortexChat.ReplyHighlights | components/CortexChat.tsx:194-206 | after a send the highlight is the reply's related ids, or stays cleared when there are none |
| CortexChat.FailedReplyHighlightsNothing | components/CortexChat.tsx:204-206 | a failed model call yields no related ids to highlight |
| CortexChat.ChatPanel.constructor | components/CortexChat.tsx:31-48 | the transcript starts with the greeting; idle, expanded, not listening, speech on |
| CortexChat.ChatPanel.UserNameChanged | components/CortexChat.tsx:53-60 | while the transcript is the first message alone its greeting is rewritten for the new name; otherwise nothing changes |
| CortexChat.ChatPanel.Post | components/CortexChat.tsx:184-194 | the request is appended, the panel thinks and the highlight is set |
| CortexChat.ChatPanel.Receive | components/CortexChat.tsx:198-199 | the reply is appended and thinking stops |
| CortexChat.ChatPanel.RunAction | components/CortexChat.tsx:68-108 | nothing happens unless the panel is open, an action is set, it is idle and the action has ids; then the request message and the reply are appended, the ids highlighted, and the action cleared when the reply arrives |
| CortexChat.ChatPanel.HandleSend | components/CortexChat.tsx:180-207 | blank input changes nothing; otherwise the input is cleared, the question and then exactly the reply are appended (two messages) and the reply's ids highlighted |
| CortexChat.ChatPanel.SendInput | components/CortexChat.tsx:184-207 | the sending part, for any input |
| CortexChat.ChatPanel.Transcribed | components/CortexChat.tsx:119-123 | a transcript is appended after a space to non-empty input, or replaces empty input; listening stops |
| CortexChat.ChatPanel.RecognitionEnded | components/CortexChat.tsx:125-135 | an error or the end of recognition stops listening |
| CortexChat.ChatPanel.ToggleListening | components/CortexChat.tsx:144-156 | the listening flag flips when speech recognition is available, and is kept otherwise |
| CortexChat.ChatPanel.ToggleTTS | components/CortexChat.tsx:172-178 | the speech flag flips |
| CortexChat.ChatPanel.EditInput | components/CortexChat.tsx:357 | the input box holds the typed text |
| CortexChat.ChatPanel.SelectSuggestion | components/CortexChat.tsx:313 | clicking a suggestion highlights that memory alone |
| CortexChat.ChatPanel.Minimize | components/CortexChat.tsx:273 | the panel collapses |
| CortexChat.ChatPanel.HeaderClick | components/CortexChat.tsx:244 | clicking the header expands the panel |
| CortexChat.ChatPanel.HandleClose | components/CortexChat.tsx:209-212 | closing clears the highlight |
| DatabaseService.ToMemory | services/databaseService.ts:24-37 | a row becomes a memory field by field: `parseInt` of the timestamp, missing tags and links become `[]`, missing flags false, and the reminder is absent exactly when the row's is missing or empty, otherwise `parseInt` of it |
| DatabaseService.ParseOptionalInt | services/databaseService.ts:48 | a stringified reminder parses back to itself |
| DatabaseService.ToDbMemory | services/databaseService.ts:40-53 | a memory becomes a row whose timestamps are the decimal strings of its times, with a reminder exactly when the memory has one |
| DatabaseService.MemoryRoundTrip | services/databaseService.ts:24-53 | writing a memory and reading it back gives the memory, with absent links and flags replaced by their defaults |
| DatabaseService.MemoryRoundTripExact | services/databaseService.ts:24-53 | the round trip is the identity exactly when links and both flags are present |
| DatabaseService.WithDefaults | services/databaseService.ts:30-35 | every stored field is kept; links default to `[]` and both flags to false, present values being kept; the memory is unchanged exactly when links and both flags are present |
| DatabaseService.RowRoundTrip | services/databaseService.ts:24-53 | a row with numeric timestamps and every optional column present reads and writes back to itself |
| DatabaseService.LoadMemories | services/databaseService.ts:95-96 | fetched rows are converted one by one, in order |
| DatabaseService.ToChatMessage | services/databaseService.ts:56-64 | a chat row becomes a message field by field; missing related ids become `[]` |
| DatabaseService.ToDbChatMessage | services/databaseService.ts:67-75 | the stored timestamp parses back to the message's time |
| DatabaseService.ChatMessageRoundTrip | services/databaseService.ts:56-75 | writing a message and reading it back gives the message, with absent related ids as `[]` |
| DatabaseService.MemoryQuery | services/databaseService.ts:84-93 | `limit` and `offset` come first; `type` only when given, `tags` only when non-empty, comma-joined, and `pinnedOnly=true` only when asked; nothing else, and in that order: `type` third, `tags` right after it and `pinnedOnly` last |
| DatabaseService.ChatQuery | services/databaseService.ts:156-163 | exactly `limit` and `offset`, holding the two numbers |
| DatabaseService.CreatedChatRow | services/databaseService.ts:171-181 | the stored message carries the current time and the message's own fields |
| DatabaseService.CreatedRow | services/databaseService.ts:103-113 | the stored memory is the memory with its timestamp overwritten by the current time |
| DatabaseService.Spread | services/databaseService.ts:124 | the spread has one key per field the update sets, under the field's name and with its value, no other key, and no `reminder_timestamp` |
| DatabaseService.UpdateBody | services/databaseService.ts:124-127 | the body keeps every spread key and adds `reminder_timestamp`, the decimal string, exactly when `reminderTimestamp` is set |
| DatabaseService.FromDbSettings | services/databaseService.ts:196-207 | every setting is read from its snake_case column |
| DatabaseService.LoadSettings | services/databaseService.ts:193-207 | no row gives null; a row gives the settings it renames |
| DatabaseService.SettingsRenameRoundTrip | services/databaseService.ts:216-245 | the rename is a bijection: column names to fields and back are both the identity |
| AppShell.DefaultSettingsShape | App.tsx:19-30 | the default settings have no user name, a blank key (so the environment key is used), the flash model without a thinking budget, and 30 retention days |
| AppShell.FilterMemories | App.tsx:98-107 | a blank query keeps every memory; otherwise exactly the memories whose lower-cased content, some tag or type contains the lower-cased query are kept, as an order-preserving subsequence in which each kept memory occurs as often as in the list |
| AppShell.QueryFindsInfix | App.tsx:98-107 | a non-blank query found, ignoring case, inside a memory's content, inside one of its tags or inside its type name keeps that memory |
| AppShell.QueryKeepsSpaces | App.tsx:99-103 | only a blank query is trimmed: a query with a leading space must match with that space |
| AppShell.EntriesLabel | App.tsx:226 | no memories give the empty-state text; otherwise "n of total entries found." while searching and "n entries collected." otherwise |
| AppShell.EntriesLabelCount | App.tsx:226 | the label starts with the number of memories shown |
| AppShell.SavedMemoryLosesLinks | App.tsx:63-72 | as written, a saved memory has no links even when the form confirmed some |
| AppShell.NewMemoryAsWritten | App.tsx:63-72 | the memory as written has one clock reading (see Left out) as id and timestamp, the form's kind, content, tags and reminder, an object URL exactly when an image was chosen, and no links or flags |
| AppShell.NewMemory | App.tsx:63-72 | the new memory has one clock reading (see Left out) as id and timestamp, the form's kind, content, tags and reminder, an image URL exactly when an image was chosen, and the confirmed links |
| AppShell.NewMemoryIdIsTime | App.tsx:65-68 | with one clock reading for both fields (see Left out), the id reads back, with `parseInt`, as the timestamp, both for the memory as written and for the corrected one |
| AppShell.WithoutId | App.tsx:273 | deleting keeps exactly the memories with another id, in order and with their multiplicities |
| AppShell.App.constructor | App.tsx:13-30 | the shell starts with no memories, on the home screen, in timeline view, light, chat closed, no query and the default settings |
| AppShell.App.LoadData | App.tsx:32-47 | loaded memories replace the list; loaded settings replace the settings only when present; a failed memory load changes nothing |
| AppShell.App.DetectColorScheme | App.tsx:49-53 | dark mode is switched on when the system prefers it, never off |
| AppShell.App.HandleSaveMemory | App.tsx:63-83 | the memory as written (without its links) is put first whether or not saving it succeeded, and the home screen is shown |
| AppShell.App.HandleSaveSettings | App.tsx:85-95 | the new settings apply and the home screen is shown whether or not saving them succeeded |
| AppShell.App.DeleteMemory | App.tsx:272-274 | the list becomes WithoutId of the old list: no memory with that id remains |
| AppShell.App.ImportMemories | App.tsx:308 | the imported memories go before the existing ones |
| AppShell.App.ClearMemories | App.tsx:307 | the list becomes empty |
| AppShell.App.SetSearchQuery | App.tsx:159 | the query is what was typed |
| AppShell.App.SetScreen | App.tsx:116 | the chosen screen is shown |
| AppShell.App.SetViewMode | App.tsx:131-145 | the chosen view is shown |
| AppShell.App.ToggleDarkMode | App.tsx:167 | dark mode flips |
| AppShell.App.ToggleCortex | App.tsx:185 | the chat opens or closes |
| AppShell.App.CloseCortex | App.tsx:325 | the chat closes |
| AppShell.App.Visible | App.tsx:98-107 | the screens get every memory for a blank query, and otherwise an order-preserving subsequence holding exactly the memories that match the lower-cased query, each as often as in the list |
| AppShell.SavedMemoryShownFirst | App.tsx:76-107 | with no query the saved memory is the first one shown, both as written and as corrected |
| CalendarView.YearOf | components/CalendarView.tsx:14 | `getFullYear`: the year whose first day is at or before the day number and whose successor's first day is after it (ECMAScript YearFromTime) |
| CalendarView.YearOfUnique | components/CalendarView.tsx:14 | that year is unique |
| CalendarView.DaysInMonth | components/CalendarView.tsx:16 | every month has 28 to 31 days, February 29 exactly in leap years |
| CalendarView.CivilOf | components/CalendarView.tsx:14-17 | the date of a day number is a valid calendar date with that day number |
| CalendarView.CivilOfDayNumber | components/CalendarView.tsx:14-17 | dates and day numbers correspond one to one |
| CalendarView.MakeDay | components/CalendarView.tsx:16-17 | `new Date(y, m, d)` for a month inside the year is day d counted on from the first of that month, days past its end running on |
| CalendarView.MakeDayNamesDate | components/CalendarView.tsx:16-17 | for a day inside the month, `new Date(y, m, d)` is the date y-m-d itself |
| CalendarView.Weekday | components/CalendarView.tsx:17 | `getDay` is a column number from 0 (Sunday) to 6 |
| CalendarView.EpochIsThursday | components/CalendarView.tsx:17 | `getDay` counts from Sunday = 0, with 1 January 1970 a Thursday |
| CalendarView.FirstDayOfMonth | components/CalendarView.tsx:17 | the first weekday is a column number 0 to 6 |
| CalendarView.MakeDayNextMonth | components/CalendarView.tsx:16-28 | the day numbers of the next month follow this month's last day, across the year end too |
| CalendarView.MakeDayPrevMonth | components/CalendarView.tsx:24 | month -1 is December of the previous year |
| CalendarView.LastDayOfMonth | components/CalendarView.tsx:16 | day 0 of the next month is the last day of this month |
| CalendarView.LastDate | components/CalendarView.tsx:16 | `daysInMonth`, the date of day 0 of the next month, is the length of the month |
| CalendarView.FirstDayIsWeekdayOfFirst | components/CalendarView.tsx:17 | `firstDayOfMonth` is the weekday of day 1 |
| CalendarView.CellColumnIsWeekday | components/CalendarView.tsx:64-74 | the cell of day d sits in the column of its weekday |
| CalendarView.NextMonthTarget | components/CalendarView.tsx:27-29 | next month lands on day 1 of the following month, January of the next year after December |
| CalendarView.PrevMonthTarget | components/CalendarView.tsx:23-25 | previous month lands on day 1 of the preceding month, December of the previous year before January |
| CalendarView.PrevOfNext | components/CalendarView.tsx:23-29 | going forward then back returns to day 1 of the month |
| CalendarView.NextIsAfter | components/CalendarView.tsx:27-29 | the next month starts right after this month's last day |
| CalendarView.NextMonthStartsAfter | components/CalendarView.tsx:17-29 | the next month's first column follows on from this month's last |
| CalendarView.MemoriesForDay | components/CalendarView.tsx:31-40 | exactly the memories whose local date is that day of the shown month and year, in their order (their counts: `MemoriesForDayCounts`) |
| CalendarView.ChipOf | components/CalendarView.tsx:101-103 | a chip carries the memory's id and type, shows the content, or "Media Content" for empty content, and a bell exactly for a non-zero reminder |
| CalendarView.Chips | components/CalendarView.tsx:95-105 | one chip per memory, in order |
| CalendarView.ViewOf | components/CalendarView.tsx:89-110 | at most 4 chips, for the first memories of the day in order; "+ N more" exactly when there are more than 4, and chips plus N account for every memory; the count label exactly when there is a memory, with the count |
| CalendarView.PaddingCellsAt | components/CalendarView.tsx:68-70 | padding cell i is the i-th |
| CalendarView.DayCellsAt | components/CalendarView.tsx:73-74 | day cell d - 1 is day d's |
| CalendarView.GridLayout | components/CalendarView.tsx:64-74 | the grid is `firstDayOfMonth` padding cells followed by exactly `daysInMonth` day cells, numbered 1 to `daysInMonth` in order |
| CalendarView.Paddings | components/CalendarView.tsx:68-70 | the first loop pushes the padding cells |
| CalendarView.DayLoop | components/CalendarView.tsx:73-114 | the second loop pushes, for every day 1..daysInMonth in turn, that day's cell with its memories and the today mark |
| CalendarView.MemoriesForDayCounts | components/CalendarView.tsx:31-40 | each memory of that day is kept as often as it occurs in the list, and no other memory is kept |
| CalendarView.RenderCalendarDays | components/CalendarView.tsx:64-117 | the two loops push the padding cells and then one cell per day, each with its memories and the today mark |
| CalendarView.Calendar.constructor | components/CalendarView.tsx:11 | the calendar starts at today |
| CalendarView.Calendar.PrevMonth | components/CalendarView.tsx:23-25 | the shown date becomes day 1 of the previous month |
| CalendarView.Calendar.NextMonth | components/CalendarView.tsx:27-29 | the shown date becomes day 1 of the next month |
| CalendarView.Calendar.Render | components/CalendarView.tsx:64-117 | the rendered cells are the month grid of the shown month |
| CalendarView.Calendar.GoToday | components/CalendarView.tsx:130 | the Today button returns to today |
| SettingsScreen.GetSetSame | components/SettingsScreen.tsx:20-22 | the changed field reads back the new value |
| SettingsScreen.GetSetOther | components/SettingsScreen.tsx:20-22 | every other field keeps its value |
| SettingsScreen.FieldsDetermineSettings | components/SettingsScreen.tsx:20-22 | settings agreeing on every field are equal, so the two lemmas above fix the new record |
| SettingsScreen.SetUnchanged | components/SettingsScreen.tsx:20-22 | writing a field's own value back changes nothing |
| SettingsScreen.SettingsForm.constructor | components/SettingsScreen.tsx:15-16 | the form edits a copy of the settings with the key hidden |
| SettingsScreen.SettingsForm.HandleChange | components/SettingsScreen.tsx:20-22 | only the named field changes, to the new value |
| SettingsScreen.SettingsForm.ToggleShowKey | components/SettingsScreen.tsx:126 | the key visibility flips |
| SettingsScreen.SettingsForm.Save | components/SettingsScreen.tsx:311 | saving hands on the edited copy |
| SettingsScreen.KeyInputType | components/SettingsScreen.tsx:118 | the key box shows plain text exactly when the key is shown |
| SettingsScreen.ModelHint | components/SettingsScreen.tsx:146-148 | the reasoning hint appears exactly for the model that gets a thinking budget |
| SettingsScreen.RetentionLabel | components/SettingsScreen.tsx:208 | the read-out starts with the decimal number of days, followed by " Day" exactly when the number is 1 and by " Days" exactly when it is not |
| SettingsScreen.RetentionLabelCount | components/SettingsScreen.tsx:208-216 | for a slider value from 1 to 60 the read-out starts with that number |
| SettingsScreen.NameParses | components/SettingsScreen.tsx:29-33 | each memory type's stored string reads back as that type |
| SettingsScreen.MemoryJsonFields | components/SettingsScreen.tsx:29-33 | an exported memory carries its id, type, content, numeric timestamp and tags |
| SettingsScreen.MemoryJson | components/SettingsScreen.tsx:29-33 | a memory is written as an object with the five required properties and exactly those optional ones that are present |
| SettingsScreen.BackupJson | components/SettingsScreen.tsx:29-33 | the backup object has version "1.0", the clock reading as timestamp, and one record per memory, each its MemoryJson, in order |
| SettingsScreen.ImageUrlRoundTrip | components/SettingsScreen.tsx:29-33 | `imageUrl` is written exactly when present and reads back |
| SettingsScreen.ReminderRoundTrip | components/SettingsScreen.tsx:29-33 | `reminderTimestamp` is written exactly when present and reads back |
| SettingsScreen.LinksRoundTrip | components/SettingsScreen.tsx:29-33 | `linkedMemoryIds` is written exactly when present and reads back |
| SettingsScreen.AnalyzingRoundTrip | components/SettingsScreen.tsx:29-33 | `isAnalyzing` is written exactly when present and reads back |
| SettingsScreen.PinnedRoundTrip | components/SettingsScreen.tsx:29-33 | `isPinned` is written exactly when present and reads back |
| SettingsScreen.MemoryRoundTrip | components/SettingsScreen.tsx:29-33 | a memory written to a backup reads back as the same memory |
| SettingsScreen.Export | components/SettingsScreen.tsx:24-33 | no file exactly when there are no memories; otherwise the envelope of version "1.0", the clock reading and the memories |
| SettingsScreen.BackupFileName | components/SettingsScreen.tsx:39 | the name is "nomorize_backup_", then the first ten characters of the ISO time (all of it when shorter), then ".json" |
| SettingsScreen.BackupFileNameByDate | components/SettingsScreen.tsx:39 | two ISO times give the same file name exactly when their date parts agree |
| SettingsScreen.ImportFile | components/SettingsScreen.tsx:50-74 | no file does nothing; a parse failure or a `null` document is a parse failure; the file is accepted exactly when `memories` is an array, which a confirmed import hands on unchanged and a refused one drops |
| SettingsScreen.ImportAlerts | components/SettingsScreen.tsx:57-70 | "Failed to parse JSON file." exactly for a parse failure or `null`; "Invalid backup file format." exactly for any other document without a `memories` array |
| SettingsScreen.ExportImportRoundTrip | components/SettingsScreen.tsx:24-61 | an exported backup is accepted again and every memory in it reads back as itself, in order |
| Util.Trim | services/cortexService.ts:89 | `trim` removes exactly the leading and trailing ECMAScript white space and line terminators |
| Util.TrimPadded | services/cortexService.ts:89 | white space around a text does not change what `trim` gives |
| Util.RemoveAllSkips | services/cortexService.ts:89 | `replace(/p/g, '')` leaves a text that lacks the first character of `p`, and goes on with what follows |
| Util.ToLower | App.tsx:101-105 | `toLowerCase` maps every character, keeping the length |
| Util.Dedup | services/cortexService.ts:357 | `[...new Set(xs)]` holds each value of `xs` once and nothing else |
| Util.Without | services/cortexService.ts:357 | the values kept are exactly those of the list that are not in the other |
| Util.DedupAppend | services/cortexService.ts:357 | deduplicating `xs + ys` gives the deduplicated `xs`, then the deduplicated `ys` without the values of `xs`, each in first-occurrence order |
| Util.IndexOfChar | services/cortexService.ts:92 | `indexOf` finds the first occurrence, or -1 when there is none |
| Util.LastIndexOfChar | services/cortexService.ts:93 | `lastIndexOf` finds the last occurrence, or -1 when there is none |
| Util.Before | components/AddMemoryForm.tsx:145 | `split(sep)[0]` is the text before the first separator, or all of it |

## Left out

- The language model, `fetch`, `FileReader`, `URL.createObjectURL`, `Blob`, DOM nodes, `alert` and `confirm` are external I/O. They are parameters or are left out. `alert` texts are modelled as values (`SettingsScreen.AlertOf`).
- The wording of the prompts is left out. Only the data that goes into each request is modelled.
- Timers and debouncing are left out: the one-second video-link delay, the two-second simulated dictation and the scroll effect. The effects are modelled as methods that run when their guard holds.
- Speech recognition and speech synthesis are browser services. Only the flags and the transcript handling are modelled.
- Asynchronous interleaving of React state updates is not modelled. Each handler runs to completion against the state it starts from.
- `toLocaleString`, `toISOString` and time zones are browser formatting:
  - The day a timestamp falls on in local time is the parameter `localDate`.
  - The ISO text is a parameter of `BackupFileName`.
  - The reminder's local input text is `Env.localInput`.
- `Date` values outside ECMAScript's range and NaN dates are not modelled. Day numbers are unbounded integers.
- server.ts and schema.ts are not part of this model. They are a thin Express and drizzle layer over Postgres; the client-side query builder is modelled in `DatabaseService`.
- MemoryCard.tsx, index.tsx and src/vite-env.d.ts are presentational or bootstrap code and are not part of this model.
- JSON values are read only where the application reads them. An `analysis`, `tags` or `relatedIds` value of the wrong type is read as absent, or its non-string elements are dropped (`Json.Strings`). The program would carry such values on unchecked.
- `Util.ToLower` folds only ASCII letters. `toLowerCase` also folds the rest of Unicode.
- `Numbers.ParseIntOfIntToString` has no exponent form. `parseInt` of numbers at or above 1e21 (written with an exponent) is not modelled.
- `CortexService.ToneInstruction` does not model inherited `Object.prototype` keys such as "constructor" as tones.
- `DatabaseService.ToMemory` requires numeric timestamp strings. A row whose timestamp would parse to NaN is outside the model.
- `CortexChat.ChatPanel.constructor`: a missing `userName` and the empty name are both the empty string. They greet the same way.
- `CortexChat.ChatPanel.HandleSend` does not check `isThinking`, exactly as the source does not.
- `CortexService.CandidateOfFencedObject`: the round trip covers JSON without backticks. A backtick run inside a JSON string is removed by the source's `replace` too, and `Unfenced` does the same, but no lemma describes the text that then reaches `JSON.parse`.
- `CalendarView.ChipOf` shows no bell for a zero reminder. It does not model the text "0" that React renders for `{0 && …}`.
- `SettingsScreen.SettingsForm.HandleChange` requires a value of the field's type. The source's `value: any` would accept anything.
- `SettingsScreen.ImportFile` hands the `memories` array on as JSON values, because the source does not validate it. `SettingsScreen.MemoryOf` is the reading used to show that exported memories come back unchanged.
- `AppShell.App.ImportMemories` takes memory records. The source would also accept malformed array entries.
- The shell passes the filtered list, not all memories, to the export, to the chat and to the capture form (App.tsx:260-326). The model keeps that: `AppShell.App.Visible` is what those components receive.
- `onHighlightMemories` is handed a no-op by the shell. The chat panel records the last highlight in `highlighted`.
- The reminder time in `AddMemoryForm` comes from the parameters `Env.parseDate` and `Env.localInput`. The time-zone offset arithmetic is not modelled.
- `AddMemoryForm.ReminderIso`: reads only a non-empty string. A truthy value of another type, such as a number, which `new Date` would also accept, is read as absent.
- `DatabaseService.DbMemory.kind`, `DatabaseService.DbSettings.ai_tone` and `DatabaseService.DbSettings.theme` are typed by the enumerations `MemoryType`, `AiTone` and `Theme`. The source casts the stored strings with `as` and never checks them, so a stored string outside the enumeration would be carried on. The model has no such value.
- The server's GET routes (server.ts) return drizzle's camelCase objects (`imageUrl`, `linkedMemoryIds`, `userName`, …), while `dbMemoryToMemory` and `dbSettingsToSettings` read snake_case keys (services/databaseService.ts:24-36 and 196-207). `DatabaseService.DbMemory` and `DatabaseService.DbSettings` are the row shape the client code expects. What the client reads from the server as wired is not modelled (there those fields are `undefined`), because server.ts is not part of this model.
- The model's characters are Unicode scalar values; JavaScript strings are UTF-16 code units. `length` and `substring(0, 100)` (`CortexService.SnippetIsPrefix`) count code units, so for text outside the Basic Multilingual Plane the source's 100-unit snippet is shorter than the model's 100-character one, and may split a surrogate pair.
- `CalendarView.MakeDay`: `new Date(y, m, d)` maps a year from 0 to 99 to 1900 + y (section 21.4.2.1 of ECMA-262, the MakeFullYear step). The model takes the year as given, so it differs from the source for calendar dates before the year 100.
- `CortexChat.UserMessage`: one clock reading serves as id and timestamp. The source calls `Date.now()` twice, for the typed message (components/CortexChat.tsx:185, 188) and for the action request (components/CortexChat.tsx:87, 90), and the two readings can differ by a millisecond. `CortexChat.ChatPanel.RunAction`, `CortexChat.ChatPanel.HandleSend` and `CortexChat.ChatPanel.SendInput` use this message and share the simplification.
- `CortexService.GenerateResponse`: one clock reading serves as id and timestamp of Cortex's message. The source calls `Date.now()` twice, both for the reply (services/cortexService.ts:365, 368) and for the trouble message (services/cortexService.ts:375, 378).
- `AppShell.NewMemoryAsWritten`: one clock reading serves as id and timestamp. The source calls `Date.now()` twice (App.tsx:65, 68), and the two readings can differ by a millisecond.
- `AppShell.NewMemory`: the same single clock reading as `AppShell.NewMemoryAsWritten`.
- `AppShell.NewMemoryIdIsTime`: the id reads back as the timestamp only because the model takes one clock reading; in the source the two `Date.now()` calls (App.tsx:65, 68) can differ by a millisecond.
- `CortexService.ToneInstruction`: the contract says each of the five tones gets an instruction other than the default. It does not say that the five instructions differ from one another.

## Findings

| source | as written | input that shows it | evidently intended | confidence | as-written member | corrected member |
|---|---|---|---|---|---|---|
| App.tsx:63-72 | `handleSaveMemory` takes five parameters and builds the memory without `linkedMemoryIds`. The form passes the confirmed links as a sixth argument (components/AddMemoryForm.tsx:207), so they are dropped; the lemma `AppShell.SavedMemoryLosesLinks` shows the saved memory has none | a form submission with confirmed links `["a"]` | the saved memory carries `linkedMemoryIds: ["a"]` | high; not executed | AppShell.NewMemoryAsWritten | AppShell.NewMemory |
