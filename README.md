# interview-to-habr, modelled in Dafny

interview-to-habr turns an interview transcript into an article for Habr
in ten stages. The stages are: load, format, compare, plan, write the
sections, merge, edit, analyse, select materials and generate them. Each
stage calls a large language model or transforms text, and either way it
writes its output into the project directory. A project's progress is kept
in `state.json` by a state store. The store holds one record per stage,
`current_stage`, token and call counters, and the selected and generated
marketing materials. Every stage takes its system prompt from a prompt
manager with three tiers: the project directory, then the global prompts
directory, then the built-in defaults. Answers are cached per stage.
`BaseStage.run` wraps each stage's `execute` in a fixed lifecycle. The
record is marked in progress, the stage executes, and then the record is
completed, or the failed result is passed through, or an exception marks
the record as an error. `Pipeline` creates and loads projects, refuses any
stage whose predecessor has not completed, and runs ranges of stages.

How the model represents the program:

- Files and directories are one shared `Storage.FileSystem` object. Its
  fields are a map from path to text and a set of directory paths.
  Prompts are read from and saved to a second `FileSystem`. It holds the
  global prompts directory and also each project's own tier,
  `dir/prompts/*.md`. The two objects must be different. So the
  `dir/prompts` directory that `create_project` makes lands in the first
  file system, while prompt files under that path are looked up in the
  second one.
- JSON values are the `Json` datatype. A Python dict is `Fields`, a
  key-ordered list of entries. `json.loads`, `json.dumps` and `str()` of a
  container form a `Codec` of function values passed in. Where it matters,
  a codec is required to read back what it writes.
- The model service is a function from a request and its index to a
  reply. `Llm.GeminiClient` logs every request and keeps
  `last_token_count`.
- The clock is a `now` text that is read once per stage run.
- Raised exceptions are `Py.Result` values holding the exception's class
  and its message.
- Classes whose fields the program updates in place are Dafny classes
  whose methods change exactly the fields they name:
  - `StateManager`, `PromptManager` and `GeminiClient`;
  - `LLMProcessor`, `BaseStage` and `Pipeline`.
- The stages' loops are methods, each proved equal to a specification
  function:
  - `WriteStage.execute`, in module `Write`;
  - `GenerateStage.execute`, in module `Generate`;
  - the `update_statistics` and `set` walkers;
  - `_build_prompt`.
- The loop of `run_all` is a method too, but it has no specification
  function. Its contract states the shape of the result list only.
- Lemmas state what `StateManager`, `PromptManager` and `BaseStage.run`
  promise about those functions, for all inputs.
- Stages 1, 2, 7 and 8 have no logic beyond the shared lifecycle, so
  their `execute` is a given outcome.

The model keeps several things the code does, where the descriptive
text promises more:

- `can_run_stage(n)` only checks `current_stage >= n - 1`. It does not
  check that stages 1 to n-1 have all completed.
- Completing a stage assigns `current_stage`. The value can therefore go
  down when an earlier stage is completed again.
- Stages 5, 7 and 8 derive their state keys from their names. This gives
  "5_write_section", "7_literary_edit" and "8_marketing_analysis", which
  are not the seeded keys, so those stages add new records
  (`Stages.OwnKeySeeded`).
- Stage 10 does not restore its stage name when a model call raises. Its
  error is therefore recorded under a key taken from the material's prompt
  name, such as "10_vk_post" (`Generate.FailedCallKeepsPromptName`).
- `run_all` looks a stage's status up under the key "n_*" and then
  ignores the answer. So it never skips a completed stage, whatever the
  lookup finds. On a new project no record has that key, and the lookup
  finds no status (`Orchestration.WildcardMatchesNoRecord`).
- A failed result that is returned, not raised, leaves the stage's
  record "in_progress" (`Base.FailedResultPassesThrough`).

## Model

| member | source | states |
|---|---|---|
| StateStore.SeededKeysLow | interview-to-habr/src/core/state_manager.py:103-109 | the first five seeded keys are "1_load", "2_format", "3_compare", "4_plan" and "5_write" |
| StateStore.SeededKeysHigh | interview-to-habr/src/core/state_manager.py:103-109 | the last five seeded keys are "6_merge", "7_edit", "8_analyze", "9_select" and "10_generate" |
| StateStore.KeyNumberOfKey | interview-to-habr/src/core/state_manager.py:166 | `int(key.split("_")[0])` reads back n from any key made of n, '_' and a name |
| StateStore.SeededKeys | interview-to-habr/src/core/state_manager.py:108-109 | after n rounds of the seeding loop there are n keys, the j-th being the j-th seeded key |
| StateStore.SeededKeysDiffer | interview-to-habr/src/core/state_manager.py:108-109 | different rounds assign different keys, because their numbers differ |
| StateStore.SeededFacts | interview-to-habr/src/core/state_manager.py:102-109 | the keys the first n rounds leave in the dict are the first n seeded keys, in order |
| StateStore.InitialKeys | interview-to-habr/src/core/state_manager.py:102-109 | a new project's stage records have exactly the ten seeded keys, in order |
| StateStore.SeededFromPending | interview-to-habr/src/core/state_manager.py:109 | every seeded record is `{"status": "pending"}` |
| StateStore.SeededFromDicts | interview-to-habr/src/core/state_manager.py:109 | every seeded record is a dict |
| StateStore.SeededFresh | interview-to-habr/src/core/state_manager.py:108-109 | a round never meets a key an earlier round assigned, so no record is overwritten |
| StateStore.SeededSplit | interview-to-habr/src/core/state_manager.py:102-109 | the records of the first n rounds followed by those from the n-th on are all the seeded records |
| StateStore.SeededIsInitial | interview-to-habr/src/core/state_manager.py:102-109 | the loop run to the end builds exactly the records of a new project |
| StateStore.TextField | interview-to-habr/src/core/state_manager.py:15-18 | a text field validates exactly when it is a string or absent with a default, and then holds that string or the default |
| StateStore.DictField | interview-to-habr/src/core/state_manager.py:19-23 | a dict field validates exactly when it is a dict or absent, and then holds that dict or the empty one |
| StateStore.FromTreeOfDump | interview-to-habr/src/core/state_manager.py:76-80 | rebuilding a record from its own `model_dump()` gives the record back |
| StateStore.FromTreeDictField | interview-to-habr/src/core/state_manager.py:19-23 | a dict field of a validated record is what the input held under that name, or empty |
| StateStore.FromTreeParts | interview-to-habr/src/core/state_manager.py:13-23 | a validated record's five dict fields are the input's dict fields |
| StateStore.DumpDictFields | interview-to-habr/src/core/state_manager.py:76 | the dump holds the five dict fields under their own names |
| StateStore.SaveThenLoad | interview-to-habr/src/core/state_manager.py:45-85 | loading what `save` wrote gives the saved record back, for any codec that reads back what it writes |
| StateStore.StageStatus | interview-to-habr/src/core/state_manager.py:174-186 | `get_stage_status`: no record gives None, a dict record gives its "status" or None, and a missing "stages" raises KeyError |
| StateStore.CanRun | interview-to-habr/src/core/state_manager.py:199-211 | stage 1 can always run; another stage runs exactly when `current_stage >= n - 1`; the comparison raises only on a non-number |
| StateStore.WithStages | interview-to-habr/src/core/state_manager.py:170 | replacing the stages dict changes that dict and nothing else |
| StateStore.Target | interview-to-habr/src/core/state_manager.py:153-154 | the record to update is found exactly when "stages" is a dict and the record is absent or a dict; a non-dict record raises TypeError |
| StateStore.UpdateStageFrames | interview-to-habr/src/core/state_manager.py:153-170 | a successful update stores the updated record under its key and leaves every other record as it was |
| StateStore.CompletedSetsCurrentStage | interview-to-habr/src/core/state_manager.py:166-168 | "completed" sets `current_stage` to the key's number, even when that is lower than before |
| StateStore.OtherStatusKeepsCurrentStage | interview-to-habr/src/core/state_manager.py:167-168 | any other status leaves `current_stage` alone, whether the update succeeds or raises |
| StateStore.NonDictRecordRaises | interview-to-habr/src/core/state_manager.py:153-154 | a record that is not a dict makes the update raise and changes nothing |
| StateStore.CompletedStampsCompletion | interview-to-habr/src/core/state_manager.py:159-160 | "completed" stamps `completed_at` with the time, unless an extra field sets it |
| StateStore.FirstStartStamps | interview-to-habr/src/core/state_manager.py:156-157 | the first "in_progress" stamps `started_at`, unless an extra field sets it |
| StateStore.StartStampKept | interview-to-habr/src/core/state_manager.py:156-157 | a truthy `started_at` survives any later update, unless an extra field sets it |
| StateStore.StatusAndExtraStored | interview-to-habr/src/core/state_manager.py:154-163 | the record holds the status given, unless an extra "status" overrides it, and every extra field with its value |
| StateStore.FailedUpdateKeepsChanges | interview-to-habr/src/core/state_manager.py:153-166 | when the key's number does not parse, the update raises but an existing record has already been changed in place |
| StateStore.StatisticsAccumulate | interview-to-habr/src/core/state_manager.py:223-227 | a number is added to an existing integer counter, and every other counter stays as it was |
| StateStore.StatisticsTwice | interview-to-habr/src/core/state_manager.py:223-227 | two updates by b and c leave the counter increased by b + c |
| StateStore.StatisticsReplaceOrInsert | interview-to-habr/src/core/state_manager.py:228-231 | a non-number replaces an existing value, and a new key is inserted with the value given |
| StateStore.StatisticsAddToText | interview-to-habr/src/core/state_manager.py:226-227 | adding a number to a text counter raises TypeError and changes nothing |
| StateStore.SelectAppendsNew | interview-to-habr/src/core/state_manager.py:245-246 | an id is appended to "selected" exactly when it is not there yet; otherwise nothing changes |
| StateStore.SelectIdempotent | interview-to-habr/src/core/state_manager.py:245-246 | selecting the same id again changes nothing |
| StateStore.SelectKeepsDistinct | interview-to-habr/src/core/state_manager.py:245-246 | a "selected" list without repeats still has none after a selection |
| StateStore.GeneratedAppends | interview-to-habr/src/core/state_manager.py:261-265 | a generated record `{id, file, generated_at}` goes at the end of "generated"; earlier records and "selected" stay |
| StateStore.PutPath | interview-to-habr/src/core/state_manager.py:310-318 | `set`'s walk succeeds only on dicts and gives a dict back |
| StateStore.PutPathThenGetPath | interview-to-habr/src/core/state_manager.py:274-318 | what `set` placed on a path is what `get` finds on the same path |
| StateStore.PutPathKeepsSiblings | interview-to-habr/src/core/state_manager.py:312-318 | keys beside the path's first key are left alone |
| StateStore.SetThenGet | interview-to-habr/src/core/state_manager.py:296-322 | after a successful `set` into one of the dict fields, `get` on the same path returns the value |
| StateStore.InitialStateFacts | interview-to-habr/src/core/state_manager.py:99-123 | a new record is well formed: ten pending records under the seeded keys, `current_stage` 0, empty "selected" and "generated" lists |
| StateStore.UpdateStageOk | interview-to-habr/src/core/state_manager.py:153-170 | a successful update leaves materials and statistics alone, stores the new record, and moves `current_stage` only on "completed" |
| StateStore.UpdateStageKeepsWellFormed | interview-to-habr/src/core/state_manager.py:135-171 | on a well-formed record, an update whose key names a number does not raise and keeps the record well formed |
| StateStore.CountersKeepWellFormed | interview-to-habr/src/core/state_manager.py:213-233 | the counters a stage adds to never make the update raise on a well-formed record, and the record stays well formed |
| StateStore.ApplyUpdate | interview-to-habr/src/core/state_manager.py:154-163 | the statements that set the status, the stamps and the extra fields build exactly the updated record |
| StateStore.ProjectDirs | interview-to-habr/src/core/state_manager.py:126-129 | the directories `create_new` makes include the project's own and its "prompts" directory |
| StateStore.SeedStages | interview-to-habr/src/core/state_manager.py:102-109 | the seeding loop builds exactly the ten pending records, keyed by number and name |
| StateStore.StateManager.constructor | interview-to-habr/src/core/state_manager.py:34-43 | the state file is `state.json` in the project directory, and no state is loaded |
| StateStore.StateManager.Load | interview-to-habr/src/core/state_manager.py:45-68 | returns the record the file decodes and validates to, or None; only a success replaces the current state |
| StateStore.StateManager.Save | interview-to-habr/src/core/state_manager.py:70-85 | with a state, stamps `updated_at` and writes its dump to the state file; without one, changes nothing |
| StateStore.StateManager.CreateNew | interview-to-habr/src/core/state_manager.py:88-133 | the new record becomes the state and is written to the state file, and the project's directories exist |
| StateStore.StateManager.MakeDirs | interview-to-habr/src/core/state_manager.py:126-129 | the four `mkdir(parents=True, exist_ok=True)` calls add exactly the project's directories |
| StateStore.StateManager.UpdateStage | interview-to-habr/src/core/state_manager.py:135-172 | the state becomes the updated record and is saved; an exception after the change leaves it changed but unsaved; without a state nothing happens |
| StateStore.StateManager.GetStageStatus | interview-to-habr/src/core/state_manager.py:174-186 | the record's status as `StageStatus` gives it; None without a state |
| StateStore.StateManager.GetLastCompletedStage | interview-to-habr/src/core/state_manager.py:188-197 | `current_stage`, or 0 without a state or without the field |
| StateStore.StateManager.CanRunStage | interview-to-habr/src/core/state_manager.py:199-211 | stage 1 always; without a state only stages up to 1; otherwise `current_stage >= n - 1` |
| StateStore.StateManager.UpdateStatistics | interview-to-habr/src/core/state_manager.py:213-233 | the counters become what the update loop leaves, saved when no `+=` raised; without a state nothing happens |
| StateStore.StateManager.AddSelectedMaterial | interview-to-habr/src/core/state_manager.py:235-248 | the id is appended and saved only when not yet selected; without a state nothing happens |
| StateStore.StateManager.AddGeneratedMaterial | interview-to-habr/src/core/state_manager.py:250-267 | one generated record is appended and saved; without a state nothing happens |
| StateStore.StateManager.Get | interview-to-habr/src/core/state_manager.py:274-294 | the value at the dotted path of the dump, or the default as soon as a step fails; the default without a state |
| StateStore.StateManager.Set | interview-to-habr/src/core/state_manager.py:296-322 | on success the rebuilt record replaces the state and is saved; a walk or validation error leaves the state alone |
| Prompts.KeysOf | interview-to-habr/src/core/prompt_manager.py:567 | `DEFAULT_PROMPTS.keys()` has one key per entry, in the table's order |
| Prompts.LookupTable | interview-to-habr/src/core/prompt_manager.py:463-465 | a stage has a built-in prompt exactly when it is a key of the table, and the prompt is that key's text |
| Prompts.DefaultPrompt | interview-to-habr/src/core/prompt_manager.py:547-557 | the built-in text for a stage in the table, whatever override files exist, and "" for any other stage |
| Prompts.Resolve | interview-to-habr/src/core/prompt_manager.py:443-469 | the project file wins when a project is open and has an entry for the stage, then the global file, then the built-in text; the source tag and file path say which; a stage none has raises `ValueError` "Prompt for stage '…' not found!"; reading a directory raises |
| Prompts.RememberIsTransparent | interview-to-habr/src/core/prompt_manager.py:440-467 | caching an answer changes no later answer for any stage, while the files stay the same |
| Prompts.CachedAnswerIsFrozen | interview-to-habr/src/core/prompt_manager.py:440-441 | a cached answer stays the same whatever happens to the files and the project until its entry is dropped |
| Prompts.SaveDir | interview-to-habr/src/core/prompt_manager.py:500-503 | with `to_project` and an open project the file goes to the project's `prompts/`, otherwise to the global directory |
| Prompts.SaveThenConsult | interview-to-habr/src/core/prompt_manager.py:483-513 | after a save the stage's next answer is the saved text, unless a project entry shadows a global save |
| Prompts.ResetFiles | interview-to-habr/src/core/prompt_manager.py:525-545 | the reset deletes the project and global files for the stage and nothing else; it returns true exactly when one of them existed |
| Prompts.ResetThenResolve | interview-to-habr/src/core/prompt_manager.py:515-545 | after a reset the stage resolves to its built-in prompt, or raises `ValueError` when it has none |
| Prompts.EntryOf | interview-to-habr/src/core/prompt_manager.py:569-574 | a listing entry names the stage, the source and the file path, and `has_custom` holds exactly when the source is not "default" |
| Prompts.Answers | interview-to-habr/src/core/prompt_manager.py:567-568 | the answers for the listed keys, one per key, in key order |
| Prompts.Listing | interview-to-habr/src/core/prompt_manager.py:566-575 | a successful listing has one entry per key |
| Prompts.ListingEntries | interview-to-habr/src/core/prompt_manager.py:566-575 | the listing succeeds exactly when every key has an answer, and then entry i is key i's entry |
| Prompts.ListingStep | interview-to-habr/src/core/prompt_manager.py:567-574 | one more key adds its entry, or its exception ends the listing |
| Prompts.ListingKeepsFailure | interview-to-habr/src/core/prompt_manager.py:567-568 | once a key raises, the whole listing raises the same exception |
| Prompts.PromptManager.constructor | interview-to-habr/src/core/prompt_manager.py:397-411 | an empty project directory counts as none, and the cache is empty |
| Prompts.PromptManager.GetPromptInfo | interview-to-habr/src/core/prompt_manager.py:425-469 | returns the cached answer or the resolution, caches a success, and changes no later answer |
| Prompts.PromptManager.GetPrompt | interview-to-habr/src/core/prompt_manager.py:413-423 | the text of the answer, or its exception |
| Prompts.PromptManager.GetSource | interview-to-habr/src/core/prompt_manager.py:471-481 | the source tag of the answer, or its exception |
| Prompts.PromptManager.SavePrompt | interview-to-habr/src/core/prompt_manager.py:500-513 | makes the directory `SaveDir` picks, then writes the file there and drops only this stage's cache entry, or, when the file's own directory is missing or the path is a directory, raises FileNotFoundError or IsADirectoryError with the files and the cache unchanged |
| Prompts.SaveIntoDir | interview-to-habr/src/core/prompt_manager.py:505-507 | a stage named by one component is written right into the directory just made, so that write cannot fail on a missing directory |
| Prompts.SaveIntoMissingSubdir | interview-to-habr/src/core/prompt_manager.py:505-507 | a stage named `sub/leaf`, as the material prompts are (`materials/tg_vk_post`), raises FileNotFoundError when `sub` does not exist under the target directory |
| Storage.FileSystem.TryWriteText | interview-to-habr/src/core/prompt_manager.py:507 | `write_text` raises as `WriteError` says and then leaves the files unchanged; otherwise it stores the text under the path |
| Storage.WriteError | interview-to-habr/src/core/prompt_manager.py:507 | a write raises exactly when the path is a directory or its parent directory does not exist, with the error `open` gives for that path |
| Storage.ParentOfJoin | interview-to-habr/src/core/prompt_manager.py:506 | the parent of `dir / name` is `dir` when `name` is a single component |
| Prompts.PromptManager.ResetToDefault | interview-to-habr/src/core/prompt_manager.py:515-545 | deletes the files as `ResetFiles` says and drops the stage's cache entry |
| Prompts.PromptManager.ListAllStages | interview-to-habr/src/core/prompt_manager.py:559-575 | one entry per built-in stage, in order; filling the cache along the way changes no answer |
| Prompts.PromptManager.SetProjectDir | interview-to-habr/src/core/prompt_manager.py:577-586 | the new project is used (an empty one counts as none) and the whole cache is dropped |
| Prompts.PromptManager.ClearCache | interview-to-habr/src/core/prompt_manager.py:588-591 | the cache is empty, and every answer is a fresh resolution |
| FileHandlers.ReplaceCrLf | interview-to-habr/src/core/file_handlers.py:193 | replacing `\r\n` never makes the text longer |
| FileHandlers.UnifyLineEnds | interview-to-habr/src/core/file_handlers.py:193 | after both replacements no `\r` is left |
| FileHandlers.CollapseBlankLines | interview-to-habr/src/core/file_handlers.py:197 | the collapse keeps the first character and adds no character that was not there |
| FileHandlers.CollapseLeavesNoTriple | interview-to-habr/src/core/file_handlers.py:197 | after the substitution no three newlines stand in a row |
| FileHandlers.CollapseKeepsTripleFree | interview-to-habr/src/core/file_handlers.py:197 | text without three newlines in a row is not changed by the substitution |
| FileHandlers.UnifyKeepsCrFree | interview-to-habr/src/core/file_handlers.py:193 | text without `\r` is not changed by the line-ending step |
| FileHandlers.Normalize | interview-to-habr/src/core/file_handlers.py:182-202 | `normalize_text` leaves no `\r`, no run of three newlines and no whitespace at either end |
| FileHandlers.NormalizeShape | interview-to-habr/src/core/file_handlers.py:192-200 | the three steps in their order give text with the three properties of `normalize_text` |
| FileHandlers.StripKeepsShape | interview-to-habr/src/core/file_handlers.py:200 | stripping does not bring back a `\r` or a run of three newlines |
| FileHandlers.NormalizeIdempotent | interview-to-habr/src/core/file_handlers.py:182-202 | normalising normalised text changes nothing |
| FileHandlers.CrLfIsOneLineEnd | interview-to-habr/src/core/file_handlers.py:193 | `\r\n` turns into one newline because it is replaced before lone `\r`; the other order would give two |
| FileHandlers.HandlerFor | interview-to-habr/src/core/file_handlers.py:135-140 | exactly the four extensions have a reader, and `.md` and `.markdown` share the Markdown reader |
| FileHandlers.GetHandler | interview-to-habr/src/core/file_handlers.py:143-162 | the reader is the one for the lower-cased suffix of the file name; an unknown suffix raises ValueError |
| FileHandlers.SaveMarkdown | interview-to-habr/src/core/file_handlers.py:205-220 | the parent directory exists afterwards and the file holds the normalised content; no other file changes |
| Llm.GeminiClient.constructor | interview-to-habr/src/core/gemini_client.py:14-26 | a new client has sent nothing and its last token count is 0 |
| Llm.GeminiClient.Generate | interview-to-habr/src/core/gemini_client.py:46-106 | every call sends one request; a failure after the retries raises and keeps the last token count; a reply returns its text and updates the count only when the reply carries one |
| Llm.Kept | interview-to-habr/src/core/llm_processor.py:112-113 | only entries with a truthy value contribute to the prompt |
| Llm.ContextPartsLayout | interview-to-habr/src/core/llm_processor.py:112-116 | each kept entry contributes, in order, its title-cased heading, its `str` value and an empty line, and nothing else is added |
| Llm.PromptLayout | interview-to-habr/src/core/llm_processor.py:94-122 | no or empty context gives the user content unchanged; otherwise the context sections come first and the content comes last under `## Main Content` |
| Llm.BuildPrompt | interview-to-habr/src/core/llm_processor.py:94-122 | the loop builds exactly the prompt `PromptLayout` describes |
| Llm.Answered | interview-to-habr/src/core/llm_processor.py:80-92 | a failed generation raises its error; otherwise the result carries the reply's text, the client's token count afterwards, the stage name and the prompt's source |
| Llm.LlmProcessor.constructor | interview-to-habr/src/core/llm_processor.py:28-37 | the processor holds the client and prompt manager it was given |
| Llm.LlmProcessor.Process | interview-to-habr/src/core/llm_processor.py:39-92 | an unresolvable prompt raises before any request, leaving the client untouched; otherwise exactly one request with the built prompt and the resolved system instruction goes out and the result reports reply text, token count and prompt source; the prompt cache only remembers the lookup |
| Base.KeyName | interview-to-habr/src/stages/base.py:153-157 | the key name is what follows the first '_' of the stage name, or the whole name when it has none |
| Base.KeyNameOfJoin | interview-to-habr/src/stages/base.py:153-157 | a name built as a head without '_', '_' and a rest gives back the rest |
| Base.StageKeyNumber | interview-to-habr/src/stages/base.py:146-158 | the state store reads the stage's own number back from `stage_key` |
| Base.NotSeeded | interview-to-habr/src/stages/base.py:146-158 | a key whose name part is not its number's seeded name has no record in a new project |
| Base.NotSeededFrom | interview-to-habr/src/stages/base.py:146-158 | the same for the records of any tail of the seeding loop |
| Base.KeysDiffer | interview-to-habr/src/stages/base.py:158 | keys with different numbers or different names are different keys |
| Base.KeepSlugChars | interview-to-habr/src/stages/base.py:302 | the substitution keeps only `[a-z0-9_-]`, in order, and leaves text made only of those alone |
| Base.PyPrefix | interview-to-habr/src/stages/base.py:305 | `slug[:max_length]` is a prefix of the length Python gives, for negative lengths too |
| Base.Slugify | interview-to-habr/src/stages/base.py:282-307 | a slug has only `[a-z0-9_-]`, is no longer than a non-negative `max_length`, and is a prefix of the filtered text |
| Base.LowerKeepsSlug | interview-to-habr/src/stages/base.py:296 | lower-casing does not change slug characters |
| Base.SlugIsFixed | interview-to-habr/src/stages/base.py:282-307 | a slug that fits the length slugifies to itself |
| Base.SlugifyIdempotent | interview-to-habr/src/stages/base.py:282-307 | slugifying a slug again with the same non-negative length changes nothing |
| Base.Updated | interview-to-habr/src/core/state_manager.py:135-172 | a store without a loaded project changes nothing and does not raise; one with a project always keeps one |
| Base.Counted | interview-to-habr/src/core/state_manager.py:213-233 | the same for `update_statistics` |
| Base.FailedResultPassesThrough | interview-to-habr/src/stages/base.py:97-117 | a failed result from `execute` is returned as it is and leaves the state as `execute` left it |
| Base.BeginMarksInProgress | interview-to-habr/src/stages/base.py:94 | on a well-formed record the opening update does not raise, the record says "in_progress", the record stays well formed and `current_stage`, counters and materials stay |
| Base.UpdatedRecord | interview-to-habr/src/core/state_manager.py:153-160 | a successful update stores the status and every extra field in the key's record |
| Base.RecordFields | interview-to-habr/src/core/state_manager.py:153-160 | a record laid out as an update leaves it has the status and each extra field |
| Base.StoredIsDict | interview-to-habr/src/core/state_manager.py:149-153 | on a well-formed record every stage record is a dict or missing |
| Base.StoredRecord | interview-to-habr/src/core/state_manager.py:149-160 | the update stores the old record with the status, the extra fields and the timestamps merged in |
| Base.UpdatedRest | interview-to-habr/src/core/state_manager.py:135-172 | with a numbered key the update does not raise, keeps the record well formed, moves `current_stage` only on "completed", and leaves materials and counters |
| Base.CountedFacts | interview-to-habr/src/stages/base.py:109-113 | on a well-formed record the counters grow by the tokens and by one call, and stages and materials stay |
| Base.SamePipelineSameRecords | interview-to-habr/src/core/state_manager.py:174-197 | stage records and `current_stage` depend on the pipeline part of the record only |
| Base.SuccessCompletes | interview-to-habr/src/stages/base.py:100-106 | a successful result completes the record with its output file and tokens and sets `current_stage` to the stage's number, keeping counters and materials |
| Base.CompletionExtraKeys | interview-to-habr/src/stages/base.py:101-106 | the completion update carries exactly `output_file` and `tokens_used`, and no "status" |
| Base.SuccessCounts | interview-to-habr/src/stages/base.py:108-117 | after completion the counters grow by the tokens and exactly one call, however many calls the stage made, and only when tokens were used |
| Base.ExceptionMarksError | interview-to-habr/src/stages/base.py:119-126 | an exception marks the record "error" with its text, returns a failed result with the same text, and keeps `current_stage` and the counters |
| Base.Stage.constructor | interview-to-habr/src/stages/base.py:56-74 | the stage keeps its project, processor and store, and its stages and output directories are under the project |
| Base.Stage.ReadInput | interview-to-habr/src/stages/base.py:160-184 | no name and no declared input raises ValueError, a missing file FileNotFoundError; otherwise the file's text |
| Base.Stage.ReadJson | interview-to-habr/src/stages/base.py:186-205 | a missing file raises FileNotFoundError; otherwise the parsed text or the decode error |
| Base.Stage.SaveOutput | interview-to-habr/src/stages/base.py:207-226 | the content is written under the stages directory, to the output file by default, and that path is returned |
| Base.Stage.SaveJson | interview-to-habr/src/stages/base.py:228-250 | the JSON text of the data is written as `save_output` writes |
| Base.Stage.Asked | interview-to-habr/src/stages/base.py:252-280 | a call sends at most one request |
| Base.Stage.CallLlm | interview-to-habr/src/stages/base.py:252-280 | the processor's `process` for the stage's current name: the answer, the request sent if the prompt resolved, and the token count afterwards |
| Base.Stage.Begin | interview-to-habr/src/stages/base.py:94 | the state and the state file are what the opening "in_progress" update leaves |
| Base.Stage.UpdateProgress | interview-to-habr/src/stages/base.py:309-322 | the record stays "in_progress" and gets `progress = {current, total}` |
| Base.Stage.MarkError | interview-to-habr/src/stages/base.py:119-126 | the `except` branch: only the state file changes |
| Base.Stage.Finish | interview-to-habr/src/stages/base.py:99-126 | what follows `execute` in `run`; only the state file changes |
| Base.Stage.Complete | interview-to-habr/src/stages/base.py:100-113 | completion and then the counters, an exception from either marking the record "error" |
| Base.Stage.Charge | interview-to-habr/src/stages/base.py:108-113 | the counter update, an exception from it marking the record "error" |
| Compare.ContentLayout | interview-to-habr/src/stages/s03_compare.py:32-37 | the request holds the original under its heading, then the formatted version under its own, and ends with a newline |
| Compare.Artifact | interview-to-habr/src/stages/s03_compare.py:43-46 | the corrected text never contains the report separator, and an answer without one is kept whole |
| Compare.StrippedHasNoSeparator | interview-to-habr/src/stages/s03_compare.py:44 | stripping the text before the separator cannot bring a separator into it |
| Compare.ArtifactIsStrippedHead | interview-to-habr/src/stages/s03_compare.py:43-44 | with a separator, the corrected text is what precedes its first occurrence, stripped, whatever follows |
| Compare.Execute | interview-to-habr/src/stages/s03_compare.py:20-58 | a missing input raises before any request or write; a failed call raises before any write; otherwise the corrected text goes to the output file and the whole answer to the report file, and the result carries the call's tokens; the directories of the written files are made, and no others |
| Plan.AfterTag | interview-to-habr/src/stages/s04_plan.py:74 | the optional `json` tag is skipped whole or not at all |
| Plan.SkipSpace | interview-to-habr/src/stages/s04_plan.py:74 | `\s*` consumes exactly the run of whitespace that starts there |
| Plan.FencedBody | interview-to-habr/src/stages/s04_plan.py:74-76 | the group captured between the first fence and the next one holds no fence |
| Plan.FencedBodyOfBlock | interview-to-habr/src/stages/s04_plan.py:74-76 | for every answer laid out as text without a fence, the opening fence, an optional `json` tag, whitespace, a body, an optional newline, the closing fence and a tail, the captured group is exactly that body (when the body does not start with whitespace, holds no fence and, with no newline before the closing fence, does not end in a newline or a backtick) |
| Plan.JsonText | interview-to-habr/src/stages/s04_plan.py:73-84 | the text handed to the JSON parser is the fenced block's body when there is one; otherwise the greedy brace span, which starts with '{' and ends with '}'; otherwise the whole answer |
| Plan.NoFenceBefore | interview-to-habr/src/stages/s04_plan.py:74 | the lazy `(.*?)` stops at the first closing fence, so what it takes holds none |
| Plan.FirstOf | interview-to-habr/src/stages/s04_plan.py:79 | the first '{' at or after a position, or none |
| Plan.LastOf | interview-to-habr/src/stages/s04_plan.py:79 | the last '}' before a position, or none |
| Plan.BraceSpanBounds | interview-to-habr/src/stages/s04_plan.py:79-81 | the greedy `\{.*\}` match runs from the first '{' to the last '}' in the text, and there is none only when no '}' follows a '{' |
| Plan.Parse | interview-to-habr/src/stages/s04_plan.py:86 | `json.loads` succeeds exactly when the text is JSON, with that value, and raises otherwise |
| Plan.SectionsValidIff | interview-to-habr/src/stages/s04_plan.py:108-112 | the section loop answers true exactly when every remaining section holds "title" and "key_points" |
| Plan.ValidatePlanIff | interview-to-habr/src/stages/s04_plan.py:88-112 | `_validate_plan` is true exactly on a dict with "title" and a non-empty "sections" list whose sections all hold "title" and "key_points" |
| Plan.ValidatePlanRaises | interview-to-habr/src/stages/s04_plan.py:100-105 | a plan that is not a container, or a list holding both required names, makes the check raise instead of answering |
| Plan.Bullets | interview-to-habr/src/stages/s04_plan.py:136-137 | one bullet per key point, in order |
| Plan.HeaderShape | interview-to-habr/src/stages/s04_plan.py:121-127 | the title line comes first, the subtitle line exactly when the subtitle is truthy, and the ", "-joined tags line exactly when the tags are |
| Plan.HeadingsAppend | interview-to-habr/src/stages/s04_plan.py:131-137 | the section headings of two runs of lines are those of the first, then those of the second |
| Plan.NoHeadings | interview-to-habr/src/stages/s04_plan.py:131-137 | lines none of which is a section heading contribute no heading |
| Plan.BulletsHaveNoHeading | interview-to-habr/src/stages/s04_plan.py:136-137 | a bullet is never taken for a section heading |
| Plan.BlockHeading | interview-to-habr/src/stages/s04_plan.py:131-137 | a section's lines contain exactly one heading, its own, numbered n |
| Plan.SectionHeadings | interview-to-habr/src/stages/s04_plan.py:131-132 | the rendered sections carry one heading each, in plan order, numbered consecutively from 1 |
| Plan.BlockBullets | interview-to-habr/src/stages/s04_plan.py:132-137 | a section with falsy key points renders as its heading alone; otherwise as heading, points heading and one bullet per point in order |
| Plan.PlanLinesSplit | interview-to-habr/src/stages/s04_plan.py:121-137 | the lines are the header, the structure heading, then the sections' lines |
| Plan.SectionStep | interview-to-habr/src/stages/s04_plan.py:131-137 | one section further, its block is appended or its lookup error is raised |
| Plan.RenderHeader | interview-to-habr/src/stages/s04_plan.py:121-127 | the header appends build exactly the header lines, raising as the lookups raise |
| Plan.RenderSection | interview-to-habr/src/stages/s04_plan.py:132-137 | the appends for one section build exactly its block |
| Plan.RenderPlan | interview-to-habr/src/stages/s04_plan.py:114-139 | the loop over the sections, numbered from 1, builds exactly the plan's lines |
| Plan.SectionsCount | interview-to-habr/src/stages/s04_plan.py:50-55 | on a plan that passed the check, `sections_count` is the number of its sections |
| Plan.Execute | interview-to-habr/src/stages/s04_plan.py:21-55 | a missing input raises before any call; a parse error or a raising check writes nothing; a plan failing the check gives the failed result and writes nothing; a passing one is saved as JSON and then rendered to the readable file; each write first makes its file's directory, and nothing else adds one |
| Write.Labelled | interview-to-habr/src/stages/s05_write.py:98-101 | each earlier section is put under its heading `## Секция n`, numbered from 1, in order |
| Write.SectionPrompt | interview-to-habr/src/stages/s05_write.py:73-138 | the request text exists only when the section has a title and its key points can be iterated |
| Write.HeadContents | interview-to-habr/src/stages/s05_write.py:109-117 | the opening part carries the plan's JSON and the whole transcript |
| Write.PreviousContents | interview-to-habr/src/stages/s05_write.py:96-103 | with no earlier sections the note says this is the first section; otherwise every earlier section occurs under its heading |
| Write.PromptContents | interview-to-habr/src/stages/s05_write.py:96-138 | a section's request carries the whole plan as JSON, the whole transcript, the task with its number, total, title and key points, and every earlier section under its heading, or the first-section note |
| Write.SlugOf | interview-to-habr/src/stages/s05_write.py:59 | the slug exists exactly when the title is a string; anything else raises AttributeError |
| Write.FileNumberOfSection | interview-to-habr/src/stages/s05_write.py:59 | the file of the section at index i starts with its number i + 1 |
| Write.SectionFilesDiffer | interview-to-habr/src/stages/s05_write.py:59-60 | sections with different numbers are written to different files, whatever their slugs, so no section overwrites another |
| Write.SectionPathsDiffer | interview-to-habr/src/stages/s05_write.py:59-60 | the full paths under `05_sections` of two sections with different indexes differ |
| Write.LoopKeepsFile | interview-to-habr/src/stages/s05_write.py:41-64 | a completed loop leaves every file alone that is neither the state file nor a section's path |
| Write.LoopFiles | interview-to-habr/src/stages/s05_write.py:41-64 | after a completed loop, the file of every section k holds the k-th answer's text, not overwritten by a later section, when the state file is not a `.md` file |
| Write.TurnProgress | interview-to-habr/src/stages/s05_write.py:43 | a turn that raises nothing leaves the stage's record with progress (i + 1, total) and the state well formed |
| Write.LoopProgress | interview-to-habr/src/stages/s05_write.py:41-43 | after a completed loop over at least one section, the record's progress is (number of sections, total) |
| Write.Called | interview-to-habr/src/stages/s05_write.py:56 | an unresolvable prompt raises and sends nothing; otherwise one request goes out and the answer decides the token count |
| Write.TurnFacts | interview-to-habr/src/stages/s05_write.py:41-64 | a turn that raises nothing sends one request, built from the answers before it, and records its answer |
| Write.LoopShape | interview-to-habr/src/stages/s05_write.py:41-64 | a loop that raises nothing adds one answer and one request per section, after the earlier ones |
| Write.LoopTrace | interview-to-habr/src/stages/s05_write.py:41-64 | in such a loop the request for each section was built from exactly the answers before it and got that section's answer |
| Write.LoopStep | interview-to-habr/src/stages/s05_write.py:41-64 | the loop after its first turn is the rest of the loop |
| Write.TracedFirst | interview-to-habr/src/stages/s05_write.py:41-64 | the first turn's request and answer keep their places in the whole run |
| Write.SectionRequests | interview-to-habr/src/stages/s05_write.py:41-64 | in a completed loop there is one answer and one request per section, and the request for section k is built from exactly the first k answers |
| Write.ComposedContents | interview-to-habr/src/stages/s05_write.py:46-53 | a built request carries the plan, the transcript and each earlier text under its heading, or the first-section note |
| Write.EarlierSectionsInRequest | interview-to-habr/src/stages/s05_write.py:41-64 | in a completed run the request for section k carries the plan, the transcript and the text of every earlier section of the run, which is the stage's stated design |
| Write.Load | interview-to-habr/src/stages/s05_write.py:29-33 | the inputs are the transcript, the plan and its sections, whose count is `total` |
| Write.WriteSection | interview-to-habr/src/stages/s05_write.py:56-63 | the call, the slug and the write of one section, as the turn function says; the state is not touched |
| Write.TurnUnsaved | interview-to-habr/src/stages/s05_write.py:43 | a turn whose progress update raises stops there |
| Write.TurnComposed | interview-to-habr/src/stages/s05_write.py:43-60 | a turn whose request text is built goes on to the call and the write; one whose text raises stops with that error |
| Write.WriteTurn | interview-to-habr/src/stages/s05_write.py:41-64 | one iteration of the loop changes the world as the turn function says |
| Write.WriteSections | interview-to-habr/src/stages/s05_write.py:34-64 | the loop changes the world as the loop function says, stops at the first error, and sums the answers' tokens |
| Write.Execute | interview-to-habr/src/stages/s05_write.py:21-71 | a load error raises before anything changes; otherwise the world is what the loop leaves, and success reports the summed tokens and `sections_count` |
| Merge.SectionNames | interview-to-habr/src/stages/s06_merge.py:32-33 | the section files are every `.md` entry of the sections directory, each once, in increasing name order |
| Merge.HeaderShape | interview-to-habr/src/stages/s06_merge.py:44-49 | the header is the title line, plus the subtitle line exactly when the subtitle is truthy; it raises exactly when the plan has no title |
| Merge.BodyOk | interview-to-habr/src/stages/s06_merge.py:52-55 | the sections' parts are built exactly when every file can be read and every plan section has a title |
| Merge.BodyPairs | interview-to-habr/src/stages/s06_merge.py:52-55 | the k-th file is paired with the k-th plan section: the k-th heading is that section's title and the k-th text that file's content |
| Merge.BodyStep | interview-to-habr/src/stages/s06_merge.py:52-55 | one pair further, its heading and text are appended, or its error is raised |
| Merge.MergeSections | interview-to-habr/src/stages/s06_merge.py:52-55 | the loop over the zipped files and sections builds exactly the parts the body function describes |
| Merge.Execute | interview-to-habr/src/stages/s06_merge.py:21-68 | a count mismatch gives the failed result with both counts and writes nothing; a raised error writes nothing; otherwise the parts joined by newlines are written to the output file and `sections_merged` is the number of files; only a successful merge makes a directory, the output file's |
| Select.CatalogIds | interview-to-habr/src/stages/s09_select.py:84 | the default selection is the catalog's ids in declaration order |
| Select.FindFrom | interview-to-habr/src/stages/s09_select.py:7-43 | the search finds an entry with that id among the remaining ones, or there is none |
| Select.Find | interview-to-habr/src/stages/s09_select.py:7-43 | looking up an id gives its entry exactly when some catalog entry has that id |
| Select.CatalogShape | interview-to-habr/src/stages/s09_select.py:7-43 | the catalog has five entries with distinct ids, each with its prompt under "materials/" and its output in the id's Markdown file |
| Select.CatalogIdsKnown | interview-to-habr/src/stages/s09_select.py:7-43 | every id of the catalog finds its own entry |
| Select.Invalid | interview-to-habr/src/stages/s09_select.py:87 | the invalid ids are no more than the selected ones |
| Select.InvalidMembers | interview-to-habr/src/stages/s09_select.py:87 | the invalid ids are exactly the selected ids the catalog lacks, each as often as it was selected |
| Select.NoneInvalid | interview-to-habr/src/stages/s09_select.py:87-88 | nothing is invalid exactly when every selected id is in the catalog |
| Select.InvalidAppend | interview-to-habr/src/stages/s09_select.py:87 | invalid ids keep the order they were selected in |
| Select.DefaultsValid | interview-to-habr/src/stages/s09_select.py:82-88 | the default selection and an empty one both pass the check |
| Select.SelectedJson | interview-to-habr/src/stages/s09_select.py:95 | the stored list holds the selected ids as strings, in order |
| Select.SelectedRoundTrip | interview-to-habr/src/stages/s09_select.py:95 | the stored list reads back as the selection itself, order and duplicates kept |
| Select.Chosen | interview-to-habr/src/stages/s09_select.py:95 | only `materials["selected"]` changes; every other material and every other part of the state stays |
| Select.SelectionRefused | interview-to-habr/src/stages/s09_select.py:87-92 | a selection is refused exactly when some selected id is not in the catalog |
| Select.RefusalNamesInvalid | interview-to-habr/src/stages/s09_select.py:88-92 | a refusal changes nothing and its message names every invalid id, in order and as often as selected |
| Select.SelectionStored | interview-to-habr/src/stages/s09_select.py:94-102 | an accepted selection is stored as given, the rest of the state kept, and its count is reported with no tokens |
| Select.Store | interview-to-habr/src/stages/s09_select.py:86-102 | the state and the result are the selection's; the state file is rewritten only when the selection is accepted |
| Select.Execute | interview-to-habr/src/stages/s09_select.py:75-102 | a missing selection becomes the whole catalog, in order; then the selection is checked and stored as above |
| Select.MaterialTypes | interview-to-habr/src/stages/s09_select.py:104-112 | the catalog has its five entries in declaration order |
| Generate.ContentLayout | interview-to-habr/src/stages/s10_generate.py:52-59 | the request holds the article under its heading, then the analysis under its own, and ends with a newline |
| Generate.MaterialOf | interview-to-habr/src/stages/s10_generate.py:49 | the lookup succeeds exactly for a string the catalog has, giving its entry; an unknown string raises KeyError |
| Generate.Recorded | interview-to-habr/src/core/state_manager.py:250-267 | with a project the material is appended to the generated list, or the append's error is raised and the state kept; without one nothing happens |
| Generate.Called | interview-to-habr/src/stages/s10_generate.py:66 | the request uses the prompt the stage's current name resolves to; an unresolvable name raises and sends nothing |
| Generate.UnknownIdRaises | interview-to-habr/src/stages/s10_generate.py:47-49 | an id the catalog lacks raises KeyError after the progress update, before any request |
| Generate.FailedCallKeepsPromptName | interview-to-habr/src/stages/s10_generate.py:63-69 | a call that raises leaves the stage under the material's prompt name, because the restore is not in a `finally` |
| Generate.PromptNameKey | interview-to-habr/src/stages/s10_generate.py:63-69 | so the error is recorded under the key that prompt name gives, "10_vk_post" for "materials/tg_vk_post", not under "10_generate" |
| Generate.Records | interview-to-habr/src/stages/s10_generate.py:76-79 | one generated record per item |
| Generate.RecordsStep | interview-to-habr/src/stages/s10_generate.py:46-79 | the records from an item on are its own, then the rest |
| Generate.ProgressKeepsMaterials | interview-to-habr/src/stages/s10_generate.py:47 | the progress update does not touch the materials |
| Generate.TurnFacts | interview-to-habr/src/stages/s10_generate.py:46-81 | a turn that raises nothing sends one request with the material's own prompt, records its answer and gives the stage its own name back |
| Generate.TurnRecords | interview-to-habr/src/stages/s10_generate.py:76-79 | such a turn appends the item's record to the generated list and keeps the earlier ones |
| Generate.LoopStep | interview-to-habr/src/stages/s10_generate.py:46-81 | a loop that raises nothing is its first turn followed by the rest |
| Generate.LoopFacts | interview-to-habr/src/stages/s10_generate.py:46-81 | a completed loop sends exactly one request per selected item, in order, each with that material's prompt, and ends under the stage's own name |
| Generate.LoopRecords | interview-to-habr/src/stages/s10_generate.py:46-81 | a completed loop appends one record per item, in order, to the generated list |
| Generate.CallAs | interview-to-habr/src/stages/s10_generate.py:63-66 | the call with the stage renamed for it, as the call function says |
| Generate.Keep | interview-to-habr/src/stages/s10_generate.py:69-79 | the name restored, the material's file written and the material recorded |
| Generate.MakeMaterial | interview-to-habr/src/stages/s10_generate.py:63-81 | one known material changes the world as the material function says |
| Generate.TurnUnsaved | interview-to-habr/src/stages/s10_generate.py:47 | a turn whose progress update raises stops there |
| Generate.TurnLooked | interview-to-habr/src/stages/s10_generate.py:47-49 | a turn whose item is in the catalog goes on to the material; one whose item is not stops with the lookup error |
| Generate.MadeRestoresName | interview-to-habr/src/stages/s10_generate.py:69 | a material made without error leaves the stage's own name |
| Generate.MakeTurn | interview-to-habr/src/stages/s10_generate.py:46-81 | one iteration changes the world as the turn function says |
| Generate.MakeAll | interview-to-habr/src/stages/s10_generate.py:41-81 | the loop changes the world as the loop function says, stops at the first error and sums the answers' tokens |
| Generate.Execute | interview-to-habr/src/stages/s10_generate.py:21-88 | a load error raises before anything changes; an empty selection fails the stage and changes nothing; otherwise the world is what the loop leaves, and success reports the summed tokens and `materials_generated` |
| Stages.InfoOf | interview-to-habr/src/stages/__init__.py:16-27 | exactly the numbers 1 to 10 have a stage, and each stage declares its own number |
| Stages.OwnKeyIs | interview-to-habr/src/stages/base.py:146-158 | a stage named head, '_' and rest keeps its record under its number, '_' and rest |
| Stages.OwnKeySeeded | interview-to-habr/src/core/state_manager.py:102-109 | a new project has a record under the key of every stage except stages 5, 7 and 8, whose names ("write_section", "literary_edit", "marketing_analysis") differ from the seeded ones |
| Stages.FreshOwnKey | interview-to-habr/src/stages/s05_write.py:15 | stages 5, 7 and 8 find no seeded record under their own keys |
| Stages.WriteKeyFresh | interview-to-habr/src/stages/s05_write.py:14-15 | the key "5_write_section" was not seeded |
| Stages.EditKeyFresh | interview-to-habr/src/stages/s07_edit.py:13-14 | the key "7_literary_edit" was not seeded |
| Stages.AnalyzeKeyFresh | interview-to-habr/src/stages/s08_analyze.py:13-14 | the key "8_marketing_analysis" was not seeded |
| Stages.UnseededKey | interview-to-habr/src/stages/base.py:146-158 | a stage whose name part differs from the name seeded for its number has no seeded record |
| Stages.SeededOwnKey | interview-to-habr/src/core/state_manager.py:103-109 | the key of each of the other seven stages is exactly its seeded key |
| Stages.Unexpected | interview-to-habr/src/stages/__init__.py:47 | no keyword is refused exactly when `input_file` goes only to stage 1, `selected_materials` only to stage 9, and there is no other keyword |
| Stages.InvalidNumberRaises | interview-to-habr/src/stages/__init__.py:44-45 | a number outside 1 to 10 raises ValueError with its message, and nothing else raises ValueError |
| Stages.ConstructForwards | interview-to-habr/src/stages/__init__.py:30-47 | a stage is built exactly when the number is registered and its class takes every keyword given, stage 1 getting its required input file; the keyword values reach the constructor unchanged |
| Stages.CreateStage | interview-to-habr/src/stages/__init__.py:30-47 | a new stage object with the number's attributes, the given project, processor and store, and the keyword values; or the construction error |
| Stages.Execute | interview-to-habr/src/stages/base.py:128-139 | the stages outside the model return the outcome given for them and change nothing; only stage 10 may change the stage name |
| Stages.Run | interview-to-habr/src/stages/base.py:80-126 | `run` marks the record "in_progress", runs `execute`, and completes, passes through or marks "error" under the key of the stage's name at that point; an exception from the first update marks the record "error" too |
| Orchestration.WildcardMatchesNoRecord | interview-to-habr/src/pipeline.py:202 | the status `run_all` looks up under "n_*" is never found in a new project, so it decides nothing |
| Orchestration.ProjectConfig | interview-to-habr/src/pipeline.py:73-76 | the stored model is the one asked for when it is non-empty, else the configured default, with the configured temperature |
| Orchestration.Status | interview-to-habr/src/pipeline.py:215-236 | on a well-formed state the status is the project's name, `current_stage`, both counters and the stage records; a missing `current_stage` raises KeyError |
| Orchestration.Pipeline.constructor | interview-to-habr/src/pipeline.py:21-46 | a new pipeline has its configured paths, model and temperature and no project |
| Orchestration.Pipeline.LoadProject | interview-to-habr/src/pipeline.py:89-133 | a missing directory raises FileNotFoundError, a state that does not load raises ValueError; it succeeds exactly otherwise, with a new store holding the loaded state, a new prompt manager for the project with an empty cache, and a processor over the given client |
| Orchestration.Pipeline.RunStage | interview-to-habr/src/pipeline.py:135-178 | without a project it raises; when the order forbids the stage it raises naming the next stage and changes nothing; a construction error changes nothing; otherwise the result is the stage's `run` |
| Orchestration.Pipeline.RunAll | interview-to-habr/src/pipeline.py:180-213 | without a project it raises; otherwise at most `to - from + 1` results, all successful but the last, and a shorter list ends with a failed result |
| Orchestration.Pipeline.CreateProject | interview-to-habr/src/pipeline.py:48-87 | an existing directory raises and changes nothing; otherwise the seeded state has the configured model and temperature, the project is loaded, the "1_load" record of that state is marked in progress and stage 1's outcome finishes it, and the directory is returned exactly when that run did not raise |
| Orchestration.Pipeline.RunFirst | interview-to-habr/src/pipeline.py:85 | stage 1 is always allowed and always built from the input file, so its record is marked in progress and the outcome of its `execute` finishes the run under its own key; without a project it raises |
| Orchestration.Pipeline.Seed | interview-to-habr/src/pipeline.py:63-77 | the directory and its subdirectories exist, the state file holds the seeded state, and `load_project` reads that same state back |
| Orchestration.Pipeline.GetProjectStatus | interview-to-habr/src/pipeline.py:225-236 | without a project or loaded state it raises ValueError; otherwise it is the status of the loaded state |

## Left out

- File, console and logging output: every `logger` call and every message printed by the command line in `main.py`; only their effect on files is modelled.
- JSON and datetime serialisation: `json.loads`, `json.dumps` and `str()` of containers are the `Codec` parameter, and timestamps are opaque texts from the `now` parameter, read once per stage run.
- Pydantic validation of `ProjectState`: only the checks `set` relies on are modelled (string, dict and required fields), with an approximate message text.
- Python's built-in error messages for `TypeError`, `KeyError` and the like: the exception class is exact, while the message follows CPython's wording only approximately.
- Unicode case: `str.lower` and `str.title` change ASCII letters only (`Text.Lower`, `Text.Title`); `Text.Lower` also maps the Kelvin sign to "k" and U+0130 to "i" followed by U+0307, the two characters whose lower case starts with an ASCII letter. Whitespace is not cut down: `Text.IsSpace` is the whole set `str.isspace` accepts (ASCII whitespace, U+001C to U+001F, U+0085, U+00A0, U+1680, U+2000 to U+200A, U+2028, U+2029, U+202F, U+205F, U+3000), and `strip` and `\s` use it. Regular expressions are modelled only as the substitutions and searches the code performs.
- The bodies of `DEFAULT_PROMPTS`: each is shortened to its first line, since only the set of keys and their order matter.
- The Gemini client's internals (the retry loop with `sleep`, model selection, usage metadata parsing, `generate_stream`): the client is a service function that answers each request after the retries, with an optional token count.
- `GEMINI_API_KEY` and the choice of model in `load_project`: the client is passed in ready-made.
- `temperature` and the extra `**kwargs` that `call_llm` forwards to the client: the temperature is carried in the request, the other keyword arguments are not modelled.
- `LLMProcessor.process_stream`: streaming is not used by any stage.
- `TxtHandler.read`, `DocxHandler.read`, `MarkdownHandler.read` and `read_file`: decoding and `python-docx`, which are library I/O; `get_handler` is modelled as the choice of handler.
- `Pipeline.list_projects`: a directory scan with no state logic.
- The YAML configuration file: the projects directory, prompts directory, default model and temperature are parameters of the `Pipeline` constructor.
- Stages 1, 2, 7 and 8 (`s01_load.py`, `s02_format.py`, `s07_edit.py`, `s08_analyze.py`): their `execute` returns the outcome given for it and has no effects of its own; their names, numbers, keyword arguments and keys are modelled.
- Stages.Execute: for stages 1, 2, 7 and 8 only the passed-through outcome is stated, not the file copy, model call and write those stages perform.
- Orchestration.Pipeline.LoadProject: it assigns all its fields at the end, while the program assigns `project_dir` and `state_manager` before the state has been loaded, so a failed load leaves these partly set; the model instead leaves the pipeline as it was.
- Orchestration.Pipeline.RunAll: an exception raised partway through leaves the method without the results collected so far, as in the program, but the contract states the shape of the result list only, not the state of each stage run.
- Storage.FileSystem.WriteText: this write never fails. It is used where the directory the file goes into was made just before (`save_output`, `save_markdown`) or is one of the directories a new project is created with (`state.json` in the project directory, the files under `output/materials`). Only `save_prompt`, whose stage names can hold a '/', goes through `TryWriteText`, which raises on a missing directory. A parent path that is a file (NotADirectoryError) is not told apart from a missing one.
- Concurrency: two processes sharing a project directory are not modelled.
