# Joris code-generation core, modelled in Dafny

Joris is a Flask assistant that turns a user story into code changes for a
local project. A run has these phases:

1. It refines the story into acceptance criteria, in a dialogue with the user.
2. It asks a language model for the relevant files, then for step-by-step
   instructions, then for code.
3. It applies the generated edit blocks to the working tree.
4. It waits for the user's verdict and refreshes the codebase summary.

This project models the parts of that run that decide what happens to text
and state:

- **Patch engine** (`patch_engine.dfy`, `patch_properties.dfy`,
  `patch_scenarios.dfy`). This is `implement_code_changes`. The generated
  text is cut into steps at `Step `. The target path is each step's second
  line. The `<<<<<<< ORIGINAL` / `=======` / `>>>>>>> UPDATED` marker split
  gives the two fragments, and one leading blank line is trimmed from each.
  Each target file then takes one of four paths:
  - empty file: written with the update;
  - blank original: the update is appended;
  - `original.lstrip()` found: its lines are spliced out and replaced;
  - not found: the update is appended, with a warning.

  The file system is the `map` field of the class `Workspace`. The
  diagnostics the engine emits go to a log field.
- **Text helpers** (`strings.dfy`, `text_lines.dfy`). These are the Python
  `str` operations the core uses: `splitlines(keepends=True)` with every line
  break Python knows, text-mode reading with universal newlines, and list
  slicing.
- **Refinement dialogue** (`refinement.dfy`, part of `open_project.dfy`).
  This covers:
  - the per-user session table of `refinement_state`;
  - the extraction of the text after `riteria:\n`;
  - the reply handler `on_user_story_feedback`, with its affirmative words
    and its iteration cap.
- **Story phases and the run** (`user_story.dfy`, `open_project.dfy`). This
  covers:
  - the `UserStory` record and its four phase methods;
  - `handle_run_story`, which runs only the phases whose artifact is missing;
  - the final disposition and status mapping;
  - the open-story filter of the project page;
  - the Jira import filter.
- **Context assembly** (`vectordb.dfy`, `code_generation.dfy`,
  `file_tree.dfy`). This covers:
  - index-name sanitizing;
  - the text `retrieve_embeddings` builds from the matched documents;
  - the de-duplicating `search_vectordb`;
  - the files `load_docs` reads;
  - the per-step parsing and chunk combination of `generate_code`.
- **Codebase summary** (`codebase.dfy`). This covers the folder-structure
  rendering over a directory tree, the `generate_summary` entry format, and
  the parse, refresh and rebuild of `update_summary`.

The language model calls and the similarity search of the vector store are
function-typed parameters: each is a function of exactly the values the
source passes to it. The files changed in the last three minutes form an
input set of paths.

The threading events become boolean fields:
- `RefinementStore.feedbackReceived` stands for `feedback_received`.
- `RunCoordinator.doneFeedback` stands for `user_story_done_feedback`.

Printing and Socket.IO emits become a diagnostic log where the patch
engine emits them, and are left out elsewhere.

Where the code does not do what its own messages announce, the model
follows the code:
- The reply handler increments its local copy of the count before comparing
  it with 3, and only the iteration function stores a higher count. So the
  third corrective reply finalizes the dialogue after two regenerations,
  while the message at `flask_app/open_project.py:331` speaks of a maximum of
  3 refinements.
- The session is removed when the waiting `refine_user_story` resumes, not
  when the reply handler finalizes.
- Some errors end the whole run, although the message at
  `flask_app/utils/code_change_handler.py:41` says a bad step is skipped.
  These are a step whose chunk has no
  second line (`IndexError` at line 18), and a missing target at a path without a
  directory part, where `os.makedirs('')` raises at line 25. The model states this as
  an `aborted` run.
- The filter in `update_summary` tests file names against
  `ignored_directories` where `generate_summary` uses `ignored_extensions`.
  Both are modelled as written (`Codebase.RefreshFilterDiffers`).
- The splice end line counts the lines of the trimmed original fragment,
  but the search drops all of its leading whitespace. As a result, an
  original given after two blank lines also replaces the line after the
  match (`PatchScenarios.TwoBlankLinesDropNextLine`,
  `PatchScenarios.TwoBlankLinesExample`: on `a b c`, replacing `b` by `X`
  gives `a X`).

## Model

| member | source | states |
|---|---|---|
| PatchProperties.PreambleIgnored | flask_app/utils/code_change_handler.py:8-16 | Text before the first `Step ` yields no step; the steps are the pieces of the rest cut at `Step `, and there are none without a `Step ` |
| PatchProperties.PreambleIrrelevant | flask_app/utils/code_change_handler.py:8-16 | Prefixing a text without `Step ` to a text that starts with `Step ` changes no step |
| PatchEngine.TargetPath | flask_app/utils/code_change_handler.py:18 | There is no path (the `IndexError`) exactly when the chunk has fewer than two lines |
| PatchEngine.ParseEditBlock | flask_app/utils/code_change_handler.py:37-39 | The block is missing exactly when the split on the three markers gives fewer than three parts |
| PatchEngine.TrimLeadingBlank | flask_app/utils/code_change_handler.py:47-52 | At most one line is dropped: the first one, and exactly when it is blank |
| PatchEngine.ApplyEditModes | flask_app/utils/code_change_handler.py:55-81 | An empty file gets exactly the updated lines. The append branch is taken iff the original is blank, the splice branch iff the stripped original occurs, and the warning branch iff it does not occur. Both fall-backs give the old text followed by the updated lines |
| PatchProperties.SpliceReplacesMatchedLines | flask_app/utils/code_change_handler.py:65-74 | Take a text with `\n` as its only break, a match that ends a line, and a trimmed original with one line per `\n`. The new text is then the text up to the start of the match's line, the updated lines, and the text after the match |
| PatchScenarios.FirstLineReplaced | flask_app/utils/code_change_handler.py:65-74 | A one-line edit whose line starts the file replaces exactly that line |
| PatchScenarios.MissingLineAppended | flask_app/utils/code_change_handler.py:76-81 | A one-line edit whose line is absent leaves the file and appends the updated line, in the warning branch |
| PatchScenarios.OneLineLongerMatch | flask_app/utils/code_change_handler.py:65-74 | An original that searches for one line but counts two lines replaces the matched line and the line after it |
| PatchScenarios.TwoBlankLinesDropNextLine | flask_app/utils/code_change_handler.py:47-74 | An original of one line after two blank lines replaces its line and the next one |
| PatchScenarios.TwoBlankLinesThreeLines | flask_app/utils/code_change_handler.py:47-74 | On a file of three code lines, such an edit of the middle line leaves the first line and the replacement only |
| PatchScenarios.TwoBlankLinesExample | flask_app/utils/code_change_handler.py:47-74 | On `a\nb\nc\n`, replacing `\n\nb\n` by `X\n` gives `a\nX\n` |
| PatchEngine.WriteChunk | flask_app/utils/code_change_handler.py:36-85 | A step without a valid edit block leaves the stored text and reports the invalid format; a write never reports a created file |
| PatchEngine.ApplyChunk | flask_app/utils/code_change_handler.py:18 | A chunk without a second line ends the run and changes nothing |
| PatchEngine.ApplyChunkEffect | flask_app/utils/code_change_handler.py:18-85 | A step changes only its target. It ends the run exactly when the target is missing and cannot be created. A missing target is reported first. A created target with an invalid block is left empty |
| PatchProperties.InvalidStepSkipped | flask_app/utils/code_change_handler.py:36-44 | An existing target with a bad edit block is unchanged, one invalid-format diagnostic is emitted, and the run goes on |
| PatchEngine.PatchStopsAfterAbort | flask_app/utils/code_change_handler.py:16-26 | Once a step has ended the run, the later steps change nothing |
| PatchProperties.PatchFrame | flask_app/utils/code_change_handler.py:16-85 | A file that no step names is neither changed nor created, nor removed |
| PatchProperties.PatchKeys | flask_app/utils/code_change_handler.py:20-26 | Every file after a run existed before or is named by a step |
| PatchScenarios.TwoSteps | flask_app/utils/code_change_handler.py:16 | Two steps run as step 1 and then step 2, against what step 1 left |
| PatchScenarios.TwoStepFiles | flask_app/utils/code_change_handler.py:29-30 | The second step reads the files as the first step wrote them |
| PatchScenarios.StepOrderMatters | flask_app/utils/code_change_handler.py:16-85 | On a file `a`, the edits a→b then b→c give `c`, and the reverse order gives `b c`: order matters |
| PatchEngine.Workspace.ImplementCodeChanges | flask_app/utils/code_change_handler.py:5-87 | The files and the log after the loop are those of the step-by-step run; `completed` is false exactly when a step raised |
| PatchEngine.Workspace.ApplyStep | flask_app/utils/code_change_handler.py:16-85 | One pass of the loop has the effect of one step |
| PatchEngine.Workspace.CreateTarget | flask_app/utils/code_change_handler.py:20-26 | A missing target is reported, created empty when its path allows it and then written; otherwise the run stops with the files unchanged |
| PatchEngine.Workspace.WriteTarget | flask_app/utils/code_change_handler.py:28-85 | The target is read, edited and written back whole; nothing else changes |
| TextLines.ConcatLines | flask_app/utils/code_change_handler.py:33 | Writing back the lines `splitlines(keepends=True)` gives yields the text |
| TextLines.ReadText | flask_app/utils/code_change_handler.py:29-30 | A text-mode read holds no carriage return |
| TextLines.ReadTextPlain | flask_app/utils/code_change_handler.py:29-30 | A file without carriage returns reads back as stored |
| Refinement.RefinementStore.constructor | flask_app/llm/llm_calls.py:16-17 | No sessions, event not set |
| Refinement.RefinementStore.Begin | flask_app/llm/llm_calls.py:165-188 | The user's session is replaced by a fresh one (count 0, the story, the models) holding the first draft; others untouched |
| Refinement.Revised | flask_app/llm/llm_calls.py:236-237 | The draft is replaced and the count rises by exactly one; story and models unchanged |
| Refinement.RefinementStore.Iterate | flask_app/llm/llm_calls.py:211-237 | Clears the event; revises the user's session if there is one (else the `KeyError`, nothing else changes) |
| Refinement.RefinementStore.Finalize | flask_app/llm/llm_calls.py:244-245 | Sets the event, sessions untouched |
| Refinement.RefinementStore.Conclude | flask_app/llm/llm_calls.py:197-208 | Returns the cleaned final draft and removes the session; a missing session or draft raises and removes nothing |
| Refinement.CleanUpSpec | flask_app/llm/llm_calls.py:198-204 | With `riteria:\n` present the result is the text between its first and second occurrence (or the end); otherwise the whole draft |
| Refinement.CleanUpDropsMarker | flask_app/llm/llm_calls.py:198-204 | The result of a draft with the marker no longer contains it |
| OpenProject.Classify | flask_app/open_project.py:323-333 | Accept iff affirmative; regenerate iff not affirmative and stored count + 1 < 3; cap otherwise |
| OpenProject.OnUserStoryFeedback | flask_app/open_project.py:316-333 | A missing session raises with nothing changed. Otherwise a regeneration revises the session and clears the event, and accepting or capping sets the event and leaves the sessions |
| OpenProject.NoTrimming | flask_app/open_project.py:323 | A reply with a leading or trailing space is never affirmative |
| OpenProject.CaseIgnored | flask_app/open_project.py:323 | `YES`, `Yep` and `Y` are affirmative, `ok` is not |
| OpenProject.DialogueCount | flask_app/open_project.py:326-329 | Over a sequence of replies the stored count grows by exactly the number of regenerations; story and models never change |
| OpenProject.RegenerationsBound | flask_app/open_project.py:326-333 | At most two regenerations from a fresh session, and fewer from a later count |
| OpenProject.FinalizerAfterRegenerations | flask_app/open_project.py:323-333 | The finalizing reply is the one right after the regenerations, and it is not itself a regeneration |
| OpenProject.ThirdCorrectionFinalizes | flask_app/open_project.py:326-333 | Three corrective replies to a fresh session: two regenerations, and the third reply finalizes |
| OpenProject.FinalizedWithinThree | flask_app/open_project.py:323-333 | Any three replies to a fresh session finalize the dialogue |
| OpenProject.ResumeCompletes | flask_app/open_project.py:145-175 | After the phases every artifact is present, stored ones are unchanged, the story and Jira id are kept |
| OpenProject.CompleteUnchanged | flask_app/open_project.py:146-173 | A story with every artifact is left exactly as it is |
| OpenProject.ResumeIdempotent | flask_app/open_project.py:146-173 | Running the phases again after a run changes nothing |
| OpenProject.CompletedPhasesSkipped | flask_app/open_project.py:146-165 | The result does not depend on the generator of a phase whose artifact is stored |
| OpenProject.RunPhases | flask_app/open_project.py:145-175 | The stored story becomes the resumed record |
| OpenProject.RunStory | flask_app/open_project.py:145-178 | The phases, over the codebase's folder structure and prepared summary, then the generated code applied as the patch engine's run |
| OpenProject.PrepareSummary | flask_app/open_project.py:117-120 | A summary is generated only when none (or an empty one) is stored |
| OpenProject.RunCoordinator.constructor | flask_app/open_project.py:23-25 | No disposition, event not set |
| OpenProject.RunCoordinator.HandleUserStoryDone | flask_app/open_project.py:336-339 | Stores the disposition and sets the event |
| OpenProject.DispositionTable | flask_app/open_project.py:191-213 | Refresh iff not `implementation_failed`. `implementation_failed` and `implemented_successfully` map to themselves, and any other value maps to `implemented_manual_changes` |
| OpenProject.FinishRun | flask_app/open_project.py:191-219 | On failure only the status is set. Otherwise the summary is updated and then the status is set; if the update raises, neither the status nor the summary changes |
| OpenProject.OpenStoriesSpec | flask_app/open_project.py:63-72 | A story is listed iff its status is neither implemented status, so failed stories stay listed |
| OpenProject.ImportJiraIssues | flask_app/open_project.py:267-290 | The stored stories followed by new stories for the issues whose id is not in the snapshot of existing ids |
| OpenProject.ImportedSpec | flask_app/open_project.py:284-290 | An issue is imported iff its id is not among the existing ids, as a fresh story |
| OpenProject.RepeatedIdImportedTwice | flask_app/open_project.py:268-290 | Two new issues with the same id are both imported, because the id set is a snapshot |
| OpenProject.ExistingIds | flask_app/open_project.py:268 | The snapshot is exactly the stored stories' non-empty Jira ids: each is in it, every member is some story's id, and the empty id never is |
| UserStories.NewStory | flask_app/userstory/userstory_class.py:24-33 | Status `to_pick_up`, the four artifacts absent, story and Jira id as given |
| UserStories.UserStory.constructor | flask_app/userstory/userstory_class.py:24-33 | The fields hold the new story |
| UserStories.ParseStatus | flask_app/userstory/userstory_class.py:33-49 | A recognised status text names that status |
| UserStories.StatusNameRoundTrip | flask_app/userstory/userstory_class.py:33-49 | Every status reads back from its stored text, so the texts are distinct |
| UserStories.PhasesTouchOneArtifact | flask_app/userstory/userstory_class.py:35-49 | Each phase sets its own artifact and the status and leaves every other field, each from exactly the inputs the source passes |
| UserStories.UserStory.RefineUserStory | flask_app/userstory/userstory_class.py:35-37 | Sets the refined story and `user_story_refined` |
| UserStories.UserStory.RelevantCode | flask_app/userstory/userstory_class.py:39-41 | Sets the relevant files from story and refined story, status `relevant_files_identified` |
| UserStories.UserStory.GenerateInstructions | flask_app/userstory/userstory_class.py:43-45 | Sets the instructions from the refined story and relevant files, status `instructions_generated` |
| UserStories.UserStory.GenerateCode | flask_app/userstory/userstory_class.py:47-49 | Sets the code from the instructions and refined story, status `code_generated` |
| UserStories.UserStory.SetStatus | flask_app/open_project.py:207-213 | Only the status changes |
| VectorDb.ReplaceUnderscores | flask_app/utils/vectordb_integration.py:76 | Same length, every `_` becomes `-`, every other character stays |
| VectorDb.KeepIndexChars | flask_app/utils/vectordb_integration.py:78 | Only `a-z`, `0-9` and `-` remain |
| VectorDb.SanitizeAppend | flask_app/utils/vectordb_integration.py:74-79 | Sanitizing works piecewise, so the output is the in-order subsequence of allowed characters of the mapped input |
| VectorDb.SanitizeFixpoint | flask_app/utils/vectordb_integration.py:74-79 | A name of allowed characters is unchanged |
| VectorDb.SanitizeIdempotent | flask_app/utils/vectordb_integration.py:74-79 | The output holds only allowed characters, and sanitizing it again changes nothing |
| VectorDb.IndexNameAppend | flask_app/utils/vectordb_integration.py:69 | Lower-casing then sanitizing also works piecewise |
| VectorDb.IndexNameChar | flask_app/utils/vectordb_integration.py:69 | An ASCII capital becomes its small letter. Allowed characters stay, `_` becomes `-`, and spaces and dots vanish |
| VectorDb.VectorDbIntegration.constructor | flask_app/utils/vectordb_integration.py:67-69 | The stored index name is the lower-cased, sanitized project name |
| VectorDb.FormatDocsAppend | flask_app/utils/vectordb_integration.py:136-140 | One block per match, in match order |
| VectorDb.FormatDocsShape | flask_app/utils/vectordb_integration.py:125-142 | No match gives `""`. Otherwise the text starts with the first match's source line and ends with the separator |
| VectorDb.FileFilter | flask_app/utils/vectordb_integration.py:130-133 | The search is filtered iff a non-empty file name is given |
| VectorDb.VectorDbIntegration.RetrieveEmbeddings | flask_app/utils/vectordb_integration.py:124-142 | The loop builds exactly the blocks of the matches of the (filtered) search |
| VectorDb.LineResults | flask_app/utils/vectordb_integration.py:149-155 | One retrieval per line, filtered by the text before the line's first space |
| VectorDb.Distinct | flask_app/utils/vectordb_integration.py:146-159 | The same values without repeats |
| VectorDb.DistinctPrefix | flask_app/utils/vectordb_integration.py:152-159 | Later lines never reorder the results already seen |
| VectorDb.SearchDropsRepeats | flask_app/utils/vectordb_integration.py:156-159 | Two lines that retrieve the same text contribute it once |
| VectorDb.VectorDbIntegration.SearchVectordb | flask_app/utils/vectordb_integration.py:144-161 | The concatenation of the distinct results in first-seen order |
| VectorDb.KeptDocsSpec | flask_app/utils/vectordb_integration.py:41-52 | A walked file is loaded iff it has no ignored extension and is not an ignored file |
| VectorDb.LoadDocs | flask_app/utils/vectordb_integration.py:16-54 | The documents of the kept files of the pruned walk, in walk order |
| FileTree.PrunedFolderInvisible | flask_app/utils/vectordb_integration.py:37-39 | A pruned subdirectory contributes nothing, whatever it holds |
| FileTree.KeptFolderWalked | flask_app/utils/vectordb_integration.py:37-39 | A kept subdirectory is walked after what is listed before it |
| FileTree.FileHereWalked | flask_app/utils/vectordb_integration.py:37-47 | A file in the root is reported with the root as its directory |
| FileTree.SortByName | flask_app/codebase/codebase_class.py:67 | The listing sorted by name, as a permutation |
| FileTree.SortedMembers | flask_app/codebase/codebase_class.py:67 | Sorting keeps exactly the listed entries |
| CodeGeneration.StepFileShape | flask_app/llm/llm_calls.py:114-117 | A file filter is a non-empty name without `/` that ends the step's second line |
| CodeGeneration.SecondQuery | flask_app/llm/llm_calls.py:125-126 | A second query exists iff the step has more than three lines |
| CodeGeneration.TrimSeparator | flask_app/llm/llm_calls.py:131-135 | One trailing separator is removed when present, else nothing |
| CodeGeneration.CombineKeepsInnerSeparator | flask_app/llm/llm_calls.py:128-135 | Only the final separator goes; the one between the two chunks stays |
| CodeGeneration.CombineIgnoresRepeat | flask_app/llm/llm_calls.py:128-129 | An empty or repeated second chunk is ignored |
| CodeGeneration.OutputsAt | flask_app/llm/llm_calls.py:111-139 | Step i gets the number i + 1 and the code found for it |
| CodeGeneration.TrackListJoins | flask_app/llm/llm_calls.py:142 | `track_list` is the step outputs in order, each followed by `\n\n` |
| CodeGeneration.StepCode | flask_app/llm/llm_calls.py:113-135 | The retrievals of one step give its combined context |
| CodeGeneration.TrackSteps | flask_app/llm/llm_calls.py:111-142 | The loop builds `track_list` over all steps |
| CodeGeneration.GenerateCode | flask_app/llm/llm_calls.py:94-151 | One review call over the whole `track_list` of the stripped instructions cut at blank lines |
| CodeGeneration.GenerateInstructions | flask_app/llm/llm_calls.py:75-91 | The instructions prompt over the story and the search result for the relevant files |
| Codebase.RenderEntryShape | flask_app/codebase/codebase_class.py:56-79 | An ignored name renders as nothing. Otherwise the first line is `indent + name + "/"`, and every line starts with the indent |
| Codebase.RenderItemsIndent | flask_app/codebase/codebase_class.py:67-73 | Every line of the items is two spaces deeper |
| Codebase.FlatItems | flask_app/codebase/codebase_class.py:70-73 | A run of files inside a folder renders one `indent + "  " + name` line per file, in the order given |
| Codebase.FlatFolder | flask_app/codebase/codebase_class.py:63-73 | A folder holding only files renders its own `indent + name + "/"` line, then one `indent + "  " + name` line per file, the files sorted by name and none lost or added |
| Codebase.FileLines | flask_app/codebase/codebase_class.py:73 | One line per file, `indent + "  " + name` |
| Codebase.Codebase.constructor | flask_app/codebase/codebase_class.py:29-36 | Name and directory as given, no summary or description, the folder structure rendered at once |
| Codebase.SummaryEntryStartsWithName | flask_app/codebase/codebase_class.py:101-103 | Every entry starts with `File: <name>\n`, also on failure |
| Codebase.SummaryEntriesPerFile | flask_app/codebase/codebase_class.py:87-103 | One entry per file that is not skipped, in walk order; a failure never ends the summary |
| Codebase.SummarizeFiles | flask_app/codebase/codebase_class.py:87-103 | The loop builds exactly those entries |
| Codebase.Codebase.GenerateSummary | flask_app/codebase/codebase_class.py:83-106 | The entries joined with `\n`, stored and returned; other fields unchanged |
| Codebase.DictSetSpec | flask_app/codebase/codebase_class.py:123 | After `d[k] = v` the key holds `v` and other keys are unchanged; a new key goes last |
| Codebase.ParsePartSpec | flask_app/codebase/codebase_class.py:122-123 | A part unpacks iff it has a newline, into the name before it; the entry is `File: ` and the part |
| Codebase.SingleEntryParses | flask_app/codebase/codebase_class.py:116-123 | A one-entry summary parses back to that entry under its name |
| Codebase.ParsePartsFails | flask_app/codebase/codebase_class.py:121-122 | A part that cannot be unpacked makes the whole parse fail |
| Codebase.ParseStoredSummary | flask_app/codebase/codebase_class.py:116-123 | The parse loop builds the map of the stored summary |
| Codebase.RefreshKeepsOthers | flask_app/codebase/codebase_class.py:126-146 | An entry no refreshed file is named after is kept verbatim |
| Codebase.RefreshKeyOrder | flask_app/codebase/codebase_class.py:146-149 | The existing keys keep their first-insertion order; new ones come after them |
| Codebase.RefreshLast | flask_app/codebase/codebase_class.py:143-146 | The last refreshed file with a name holds `File: <name>\n<new summary>` |
| Codebase.RefreshUpdates | flask_app/codebase/codebase_class.py:126-146 | Every modified candidate file, wherever it is in the walk, holds `File: <name>\n<new summary>` unless a later modified file has the same name |
| Codebase.RefreshFails | flask_app/codebase/codebase_class.py:143 | A failing summary call makes the whole refresh fail |
| Codebase.NoRefresh | flask_app/codebase/codebase_class.py:126-146 | With no modified file the map is unchanged |
| Codebase.NothingModified | flask_app/codebase/codebase_class.py:108-151 | With no modified file the result is the stored entries rebuilt in order |
| Codebase.RefreshFilterDiffers | flask_app/codebase/codebase_class.py:129-130 | A file with an ignored extension is left out of the summary but still refreshed |
| Codebase.RefreshEntries | flask_app/codebase/codebase_class.py:126-146 | The walk loop builds exactly the refreshed map |
| Codebase.Codebase.UpdateSummary | flask_app/codebase/codebase_class.py:108-151 | The refreshed entries joined with `\n\n` are stored. The summary is unchanged where the source raises: no summary, a part without a newline, or a failing summary call |

## Left out

- Language model calls (`ChatOpenAI` chains, `summarize`, the prompts): function parameters, since they are foreign services.
- `describe_application` (both the call and `Codebase.describe_application`), by the same reasoning: only its output would be stored and it has no logic of its own. The model parameters (`models`) are stored in the session but otherwise carry no logic.
- Pinecone, embeddings and document splitting (`index_exists`, `is_index_populated`, `create_index`, `flush_index`, `embed_and_store`, `split_docs`): foreign services; search results are an abstract document sequence.
- Git, Jira, the database session, Flask routes, Socket.IO emits and `print` outside the patch engine: plumbing with no decision logic; the Jira exception path of `import_jira_issues` is not modelled.
- `on_git_feedback_dirty`: a busy-wait on the repository state.
- Threading: the waits become preconditions or resume methods on the boolean flags. Neither event is cleared after finalizing, so a later wait may pass at once. The flags keep that state, but the model does not interleave requests.
- File modification times: `update_summary`'s "changed in the last 180 seconds" test is the input set `modified`.
- Directory listing errors (the `PermissionError` and other exception branches of `extract_structure`) and the fallback to an empty configuration in `_load_ignore_config`: the ignore configuration and the tree are inputs.
- `implement_code_changes` lines 6-13: `str.split` cannot raise on a string, so that branch cannot be reached for text input.
- PatchEngine.Workspace: the file system is a map from path strings to contents. Paths are compared as strings with no normalisation, so `./a.py` and `a.py` are different files. Directories are not in the map: for a step naming an existing directory the source raises `IsADirectoryError` at `flask_app/utils/code_change_handler.py:29` and ends the run, while the model creates a file there. Contents are held as already-decoded text, so every stored target reads successfully: the `UnicodeDecodeError` that `open(file_path, 'r').read()` at `flask_app/utils/code_change_handler.py:29-30` raises on bytes that do not decode in the locale encoding, ending the run, is not modelled. Nor is the `FileExistsError` or `NotADirectoryError` that `os.makedirs` at line 25 raises when a parent of the target is an existing file (`a.py/x` with `a.py` stored): the model creates the file. Writes store `\n` unchanged, as on POSIX, with no newline translation.
- Strings.Lower: of the mappings of `str.lower()`, only A-Z (to a-z), U+212A (the Kelvin sign, to `k`) and U+0130 (to `i` followed by U+0307) are spelled out; every other character is kept unchanged, including the non-ASCII capitals Python lower-cases.
- CodeGeneration.GenerateCode: requires every step to have at least three lines, because `lines[1]` and `lines[2]` are read unguarded; the `IndexError` is not modelled.
- PatchProperties.SpliceReplacesMatchedLines: stated only for text whose sole line break is `\n` and for matches that end a line. The engine itself handles every break `splitlines` knows.
- PatchEngine.ApplyEditModes: states the text after the edit for the fall-back branches and the empty file; the splice branch is stated in text form by `PatchProperties.SpliceReplacesMatchedLines` under its hypotheses.
- OpenProject.FinishRun: when `update_summary` raises, the run ends with no status written; the index refresh, the description and the Jira move before and after it are left out.
- The refine phase saves nothing to the database, as in the source; persistence itself is not modelled.
