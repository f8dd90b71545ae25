# Promptify core, modelled in Dafny

This project models the core of Promptify, a prompt-engineering toolkit. The
toolkit renders task prompts, hands them to a language model and repairs
truncated model output into Python objects. The model covers:

- **Parser** (`promptify/parser/parser.py`), the incomplete-JSON recovery parser:
  - `get_combinations` enumerates closing suffixes over `}` and `]` (module `Suffixes`);
  - `complete_json_object` trims the text until text plus suffix evaluates;
  - `get_possible_completions` collects every success;
  - `find_max_length` ranks the successes with a stable sort (module `Ranking`);
  - `fit` wraps the search and never raises; `is_valid_json` sits beside it (module `RecoveryParser`);
  - `extract_complete_objects` collects bracketed literals (module `ObjectExtraction`).
- **`PromptCache`**: a dict in which the first write wins and nothing is evicted (module `PromptCaching`).
- **`TemplateLoader`**: the `load_template` memo table and the first-match `search_model` (module `TemplateLoading`).
- **The two `Prompter` classes**:
  - `NlpPrompter` models `promptify/prompter/nlp_prompter.py`: missing-variable check, default merging, memoised loading, raw/cached dispatch in `fit`;
  - `TaskPrompter` models `promptify/prompts/nlp/prompter.py`: missing-variable assertion, keyword-argument routing, prompt override.
  - The missing-variable rule they share lives in `TemplateVariables`.
- **`PromptProcessor`** (module `PromptProcessing`): `get_token_count`, `adjust_token_limit`, `batch_prompt` and `trim_prompt`, over an opaque tokenizer.
- **The prompt builders**:
  - `binary`, `multiclass` and `multilabel` (module `Classification`);
  - `ner` (module `Ner`);
  - `QA_GEN` and `QA` (module `QuestionAnswering`);
  - `Summary` (module `Summarization`).
  - Their shared pieces are in `PromptText`.
- **`get_conversation_schema`** (module `Conversation`).

Shared modules:

- `PyValues`: the shapes of Python values, `type(...)`, the exceptions raised, and `Result`/`Option`.
- `Text`: `str.strip()`, `join`, `str(int)`, the `repr` of a list of strings, and prefix/suffix predicates.

Python's `eval` is a parameter `eval: string -> Option<PyValue>`, with `None` meaning the call raised; every call site catches every `Exception` `eval` raises. `ast.literal_eval` is a parameter `literalEval: string -> Result<PyValue>` that reports the exception it raises, because `extract_complete_objects` catches only ValueError and SyntaxError. `len(str(x))` is a parameter `size: PyValue -> nat`. Every parser property is proved for all such evaluators.

The other outside collaborators are also opaque function values. Every contract holds whatever values they return. Where the source lets one of their exceptions through, the collaborator returns a `Result` and the contract states how the exception propagates. The few that stay total are named under "## Left out", each with its reason. The collaborators are:

- jinja parsing and rendering;
- variable discovery;
- the filesystem;
- the language model;
- tiktoken's `encode`/`decode`;
- Python's `repr` of one string.

Each loop in the source is a Dafny method with loop invariants, proved equal to a specification function; the lemmas are stated about those functions. Classes whose fields the source updates are Dafny classes with `modifies` frames:

- `PromptCache`;
- `TemplateLoader`;
- both `Prompter`s;
- `PromptProcessor`.

`get_combinations` yields `itertools.product("}]", ...)` order, so `}` comes before `]`, which is not ASCII order; `Suffixes.CombinationsPosition` states it.

## Model

| member | source | states |
|---|---|---|
| Suffixes.ProductAt | promptify/parser/parser.py:38 | entry k of `product("}]", repeat=i)` is the i-digit base-2 numeral of k, with `}` as 0 and `]` as 1, and the block has 2^i entries |
| Suffixes.IndexOfWord | promptify/parser/parser.py:38 | reading the numeral of k back gives k |
| Suffixes.WordOfIndex | promptify/parser/parser.py:38 | every word over the marks is the numeral of the number it spells |
| Suffixes.ProductDistinct | promptify/parser/parser.py:38 | no word repeats within one length |
| Suffixes.CombinationsCount | promptify/parser/parser.py:36-40 | `get_combinations(n)` has 2^n - 2 entries for n >= 1 and none for n <= 1 |
| Suffixes.CombinationsShape | promptify/parser/parser.py:36-40 | every entry is a word over `}`/`]` of length 1..n-1, and lengths never decrease along the list |
| Suffixes.CombinationsDistinct | promptify/parser/parser.py:36-40 | no suffix appears twice |
| Suffixes.CombinationsBlock | promptify/parser/parser.py:37-39 | the round for length L appends `product("}]", repeat=L)` starting at index 2^L - 2, after all shorter words |
| Suffixes.CombinationsPosition | promptify/parser/parser.py:36-40 | each word w of length 1..n-1 sits at index 2^\|w\| - 2 + (its base-2 value): after all shorter words, and in `itertools.product` order within its length |
| Suffixes.CombinationsMembers | promptify/parser/parser.py:36-40 | a string is listed exactly when it is a word over `}`/`]` of length 1..n-1 |
| Suffixes.CombinationsOfThree | promptify/parser/parser.py:36-40 | `get_combinations(3)` is `["}", "]", "}}", "}]", "]}", "]]"]` |
| Suffixes.GetCombinations | promptify/parser/parser.py:36-40 | the two nested loops produce `Combinations(n)` |
| Ranking.StableSort | promptify/parser/parser.py:115 | `sorted(..., reverse=True)` by size: a permutation, non-increasing in size, with elements of equal size in input order |
| Ranking.FirstLongest | promptify/parser/parser.py:120 | a reference scan: the index of the first element of maximal size |
| Ranking.HeadIsFirstLongest | promptify/parser/parser.py:120 | the head of the stable sort is the first element of maximal size |
| Ranking.FindMaxLength | promptify/parser/parser.py:112-123 | IndexError exactly for an empty list; otherwise `suggestions` is the stable sort and `completion` its head, the first longest element |
| RecoveryParser.CompleteObjectFails | promptify/parser/parser.py:49-58 | `complete_json_object` raises ValueError("Couldn't fix JSON") exactly when no nonempty prefix of the text evaluates with the suffix |
| RecoveryParser.CompleteObjectLongest | promptify/parser/parser.py:49-58 | otherwise it returns the value of the longest nonempty prefix that evaluates with the suffix |
| RecoveryParser.CompleteJsonObject | promptify/parser/parser.py:49-58 | the `while True` loop, which drops one character per failed attempt, terminates and computes `CompleteObject` |
| RecoveryParser.CompletionsAppend | promptify/parser/parser.py:69-75 | collecting over two runs of suffixes concatenates the collected values |
| RecoveryParser.CompletionsMembers | promptify/parser/parser.py:69-75 | a value is collected exactly when some tried suffix completes the text to it |
| RecoveryParser.CandidatesGrow | promptify/parser/parser.py:69-76 | raising `max_completion_length` by one appends the candidates of the new length and keeps the old list as a prefix |
| RecoveryParser.GetPossibleCompletions | promptify/parser/parser.py:69-76 | tries the suffixes in order and keeps every success, duplicates included; raises IndexError exactly when there is none; otherwise returns the ranking of the candidates |
| RecoveryParser.IsValidJson | promptify/parser/parser.py:15-28 | true exactly when `eval` succeeds with a dict or a list; any exception gives false |
| RecoveryParser.Fit | promptify/parser/parser.py:88-101 | "completed" exactly when the text evaluates or some candidate exists; a directly evaluating text is returned with no suggestions; otherwise the ranked search is returned, with `object_type` the completion's type; a failure has `object_type` None and the IndexError message; `fit` never raises |
| RecoveryParser.FitWithoutSuffixes | promptify/parser/parser.py:94-101 | with `max_completion_length <= 1`, text that does not evaluate fails |
| RecoveryParser.FitCompletionOrigin | promptify/parser/parser.py:95-99 | a completion found by the search is what `complete_json_object` gives for one of the tried suffixes |
| RecoveryParser.ValidJsonFitsDirectly | promptify/parser/parser.py:21-28 | text `is_valid_json` accepts (it evaluates to a dict or list) is returned by `fit` as it is: type dict or list, no suggestions |
| ObjectExtraction.MatchEndIsObject | promptify/parser/parser.py:132 | the scanner matches `s[p..e]` exactly when it is a match of the regular expression's `[...]` or `{...}` alternative, with the opener not after a backslash |
| ObjectExtraction.MatchesSound | promptify/parser/parser.py:143 | every reported span is a match, and the spans come left to right without overlap |
| ObjectExtraction.MatchesLeftmost | promptify/parser/parser.py:143 | every position where a match starts lies inside some reported span |
| ObjectExtraction.MatchesClosed | promptify/parser/parser.py:143-153 | every span lies within the string, is at least two characters long, and ends in `}` or `]` |
| ObjectExtraction.Texts | promptify/parser/parser.py:153 | the text of span j is `s[start_j:end_j]` |
| ObjectExtraction.EvaluatedMembers | promptify/parser/parser.py:159-168 | the loop finishes exactly when every string evaluates or raises ValueError/SyntaxError; then a value is returned exactly when some collected string evaluates to it, and never more values than strings |
| ObjectExtraction.EvaluatedFailure | promptify/parser/parser.py:159-168 | otherwise the exception that escapes is the one raised for the first string whose exception is not caught |
| ObjectExtraction.EvaluatedStops | promptify/parser/parser.py:159-168 | once an uncaught exception is raised, no later string changes the outcome |
| ObjectExtraction.UnhashableKeyEscapes | promptify/parser/parser.py:132-168 | `{[1]: 2}` is one match, and the TypeError of its unhashable key leaves the function |
| ObjectExtraction.ExtractCompleteObjects | promptify/parser/parser.py:125-170 | the loop with its stack and counters emits every match on its own, so the result is the values of the matches that evaluate, in order, or the first exception the `except` clause does not catch |
| PromptCaching.Lookup | promptify/prompter/prompt_cache.py:12-13 | `get` gives the stored value, or None when the key is absent |
| PromptCaching.Added | promptify/prompter/prompt_cache.py:15-17 | `add` writes only when the key is absent; every other entry is unchanged |
| PromptCaching.FirstWriteWins | promptify/prompter/prompt_cache.py:15-17 | adding under a present key changes nothing; under a new key `get` returns the value; other keys read the same |
| PromptCaching.StoredNoneIsMiss | promptify/prompter/prompt_cache.py:12-13 | a stored None reads exactly like a missing key |
| PromptCaching.NoEviction | promptify/prompter/prompt_cache.py:6-17 | after any run of `add` calls, the keys are the old keys plus every key written, and old entries keep their values, whatever `cache_size` is |
| PromptCaching.PromptCache.constructor | promptify/prompter/prompt_cache.py:4-6 | a new cache is empty and stores `cache_size` |
| PromptCaching.PromptCache.Get | promptify/prompter/prompt_cache.py:12-13 | returns `Lookup` of the entries |
| PromptCaching.PromptCache.Add | promptify/prompter/prompt_cache.py:15-17 | the new entries are `Added(old entries, key, value)` |
| PromptCaching.PromptCache.Clear | promptify/prompter/prompt_cache.py:19-20 | afterwards every `get` answers None |
| TemplateLoading.FromStringData | promptify/prompter/template_loader.py:36-43 | a `from_string` entry is named "from_string", has no directory and no environment, and holds the compiled template |
| TemplateLoading.Memo | promptify/prompter/template_loader.py:33-48 | a stored key is answered from the table unchanged; otherwise the computed result is returned and stored under the key, unless it failed |
| TemplateLoading.MemoOnce | promptify/prompter/template_loader.py:33-34 | once an entry is stored, asking again returns it and changes nothing, however it would be computed now |
| TemplateLoading.MemoKeepsOthers | promptify/prompter/template_loader.py:47 | filling one key keeps every other stored entry |
| TemplateLoading.LoadStep | promptify/prompter/template_loader.py:20-48 | `load_template` on the table: a stored key is answered as stored; a string template gives the "from_string" entry; a path goes to the loader; success is stored under the template string and returned |
| TemplateLoading.LoadedOnce | promptify/prompter/template_loader.py:33-34 | a loaded template is returned unchanged by later loads, whatever `model_name` and `from_string` they pass |
| TemplateLoading.FirstMatch | promptify/prompter/template_loader.py:95-97 | the index of the first sample whose `models` contains the name: no earlier sample does |
| TemplateLoading.AllModelsMembers | promptify/prompter/template_loader.py:94-102 | a name occurs in the concatenated model lists exactly when some sample lists it |
| TemplateLoading.SearchModel | promptify/prompter/template_loader.py:92-102 | returns the first matching sample, or the not-found error listing every sample's models in order |
| TemplateLoading.TemplateLoader.constructor | promptify/prompter/template_loader.py:14-18 | `loaded_templates` starts empty |
| TemplateLoading.TemplateLoader.LoadTemplate | promptify/prompter/template_loader.py:20-48 | the new table and the answer are `LoadStep` of the old table |
| TemplateVariables.UncoveredMembers | promptify/prompter/nlp_prompter.py:124-130 | a variable is reported exactly when the template has it and nothing covers it |
| TemplateVariables.NoneUncovered | promptify/prompts/nlp/prompter.py:104-108 | nothing is missing exactly when every template variable is covered |
| TemplateVariables.UncoveredAntitone | promptify/prompter/nlp_prompter.py:124-130 | covering more names never reports more variables |
| TemplateVariables.CollectUncovered | promptify/prompts/nlp/prompter.py:104-107 | the loop collects `Uncovered(variables, covered)` |
| Text.StripLeftShape | promptify/prompter/nlp_prompter.py:138 | `lstrip()` drops a prefix made only of white space and leaves a string that does not start with white space |
| Text.StripRightShape | promptify/prompter/nlp_prompter.py:138 | `rstrip()` drops a suffix made only of white space and leaves a string that does not end with white space |
| Text.StripShape | promptify/prompter/nlp_prompter.py:138 | `str.strip()` leaves the infix between a white-space prefix and a white-space suffix, and it neither starts nor ends with white space |
| NlpPrompter.AllowedMissing | promptify/prompter/nlp_prompter.py:27-31 | None or an empty list falls back to `["examples", "description", "output_format"]`; any other list is kept |
| NlpPrompter.Merged | promptify/prompter/nlp_prompter.py:46-48 | `update`: new keys win, other keys keep their values, and no other key appears |
| NlpPrompter.MergedIntoEmpty | promptify/prompter/nlp_prompter.py:46-48 | starting from no defaults, the result is the new mapping |
| NlpPrompter.RenderArguments | promptify/prompter/nlp_prompter.py:123-138 | the render arguments always hold `text_input`; defaults override caller values of the same name, `text_input` included |
| NlpPrompter.PromptOutcome | promptify/prompter/nlp_prompter.py:123-139 | the missing-variable ValueError when some variable is in none of kwargs-with-`text_input`, the allowed-missing list and the defaults, naming those variables; otherwise the exception of rendering, or the stripped rendering |
| NlpPrompter.MissingNamesExact | promptify/prompter/nlp_prompter.py:124-130 | the names reported are exactly the template variables that none of the three sources supplies |
| NlpPrompter.OutputsShape | promptify/prompter/nlp_prompter.py:168-173 | the outputs exist exactly when every response element converts, and then they are the converted elements, one per element, in order |
| NlpPrompter.OutputsFailure | promptify/prompter/nlp_prompter.py:168-173 | otherwise the exception is the one raised for the first element that does not convert (NotImplementedError from the base adapter, say) |
| NlpPrompter.RawFit | promptify/prompter/nlp_prompter.py:141-146 | the exception of `model.run` propagates; otherwise every response element goes through `model_output_raw`, as `OutputsShape`/`OutputsFailure` state |
| NlpPrompter.ModelAnswer | promptify/prompter/nlp_prompter.py:167-173 | the exception of `execute_with_retry` propagates; otherwise every response element goes through `model_output` with `max_completion_length` |
| NlpPrompter.CachedAnswer | promptify/prompter/nlp_prompter.py:163-177 | with `cache_prompt`, a cached prompt is answered from the cache and a fresh successful result is stored under the prompt; without it the cache is never written |
| NlpPrompter.CachedAnswerIgnoresModel | promptify/prompter/nlp_prompter.py:163-165 | once cached, a prompt gets the same answer however the model would answer now |
| NlpPrompter.Prompter.constructor | promptify/prompter/nlp_prompter.py:19-38 | the fields as `__init__` sets them, apart from the unread `model_args_count`/`model_variables`: empty caches, the allowed-missing fallback, the defaults or an empty map |
| NlpPrompter.Prompter.UpdateDefaultVariableValues | promptify/prompter/nlp_prompter.py:46-48 | the defaults become `Merged(old defaults, new defaults)`, nothing else changes |
| NlpPrompter.Prompter.LoadTemplate | promptify/prompter/nlp_prompter.py:58-90 | a loaded key is answered as stored without loading; a new one is loaded and stored under the template string |
| NlpPrompter.Prompter.GetTemplateVariables | promptify/prompter/nlp_prompter.py:108-115 | a known template name is answered from the map without parsing; a new one is parsed and stored, and a TemplateSyntaxError of `parse` is returned and stores nothing |
| NlpPrompter.Prompter.Generated | promptify/prompter/nlp_prompter.py:117-139 | both memo tables only grow; a success is the stripped rendering of the stored template, which must have rendered; with both tables warm, `generate_prompt` is `PromptOutcome` and changes nothing |
| NlpPrompter.Prompter.GeneratePrompt | promptify/prompter/nlp_prompter.py:117-139 | the new tables and the result are `Generated` of the old state |
| NlpPrompter.Prompter.Fit | promptify/prompter/nlp_prompter.py:148-177 | with `raw_prompt`, `raw_fit` before any template check, state unchanged; with a missing or empty template path, the ReferenceError ValueError; otherwise the generated prompt's failure, or the cached/fresh answer as `CachedAnswer` states |
| TaskPrompter.PromptKwargs | promptify/prompts/nlp/prompter.py:136-142 | exactly the kwargs that name a template variable, with their values |
| TaskPrompter.ModelKwargs | promptify/prompts/nlp/prompter.py:136-142 | exactly the other kwargs that name a `model.run` parameter, with their values |
| TaskPrompter.FirstOutput | promptify/prompts/nlp/prompter.py:151-152 | `model.run(prompts=[p], **model_kwargs)[0]`: a TypeError for a "prompts" model kwarg, IndexError for an empty result, else element 0 |
| TaskPrompter.Prompter.constructor | promptify/prompts/nlp/prompter.py:36-46 | keeps the allowed-missing list and the model's parameter names |
| TaskPrompter.Prompter.GenerateOutcome | promptify/prompts/nlp/prompter.py:103-111 | the TemplateNotFound/TemplateSyntaxError of finding the variables propagates; otherwise AssertionError when some template variable is neither a kwarg nor allowed missing, listing them in order; otherwise the exception of rendering, or the stripped rendering |
| TaskPrompter.Prompter.GeneratePrompt | promptify/prompts/nlp/prompter.py:103-111 | the loop-based check computes `GenerateOutcome` |
| TaskPrompter.Prompter.PartitionKwargs | promptify/prompts/nlp/prompter.py:136-142 | the loop over kwargs fills exactly `PromptKwargs` and `ModelKwargs` |
| TaskPrompter.Prompter.PromptVariables | promptify/prompts/nlp/prompter.py:130-134 | "bypass" has no template variables; any other name has the template's, or the exception finding them raises |
| TaskPrompter.Prompter.Fit | promptify/prompts/nlp/prompter.py:113-152 | the exception of finding the template's variables leaves `fit` first; then a "prompt" kwarg is sent verbatim with no rendering; otherwise the template is rendered from the template-variable kwargs only and its failure propagates; either way one `model.run` call with a one-element list and the model kwargs, returning element 0 |
| TaskPrompter.BypassRendersNothing | promptify/prompts/nlp/prompter.py:130-142 | with "bypass", no kwarg reaches the template |
| TaskPrompter.RoutedOnce | promptify/prompts/nlp/prompter.py:138-142 | each kwarg goes to the template if it names a variable, else to the model if it names a parameter, never to both |
| PromptProcessing.SliceBound | promptify/processor/prompt_processor.py:62 | a Python slice bound: negative bounds count from the end, and every bound is clipped to the sequence |
| PromptProcessing.Slice | promptify/processor/prompt_processor.py:62-64 | `s[start:stop]` is the infix between the clipped bounds, or empty when they cross |
| PromptProcessing.TrimTokens | promptify/processor/prompt_processor.py:59-64 | an encoding of at most `token_limit` tokens is kept whole; a longer one keeps its last `limit` tokens for "pre" (but all of them for limit 0, as `tokens[-0:]`) and its first `limit` for "post"; negative limits follow Python's slices |
| PromptProcessing.TrimZeroPreKeepsAll | promptify/processor/prompt_processor.py:62 | with limit 0, "pre" keeps a one-token encoding whole while "post" keeps nothing |
| PromptProcessing.TrimTokensIntended | promptify/processor/prompt_processor.py:60-64 | intended trimming: `min(len, max(limit, 0))` tokens, the last ones for "pre" and the first ones for "post" |
| PromptProcessing.TrimAgreesForPositiveLimit | promptify/processor/prompt_processor.py:60-64 | for a positive limit, the code as written and the intended trimming agree |
| PromptProcessing.ChunksCover | promptify/processor/prompt_processor.py:47-50 | the batches cover every token once, in order |
| PromptProcessing.ChunksCount | promptify/processor/prompt_processor.py:47-50 | there are no batches exactly for no tokens, and otherwise just enough batches to hold every token |
| PromptProcessing.ChunksSizes | promptify/processor/prompt_processor.py:47-50 | every batch but the last holds `batch_size - 1` tokens; the last holds between 1 and `batch_size - 1` |
| PromptProcessing.ChunkAt | promptify/processor/prompt_processor.py:48-49 | batch k is `tokens[k*w:(k+1)*w]`, with w = `batch_size - 1` |
| PromptProcessing.StrippedTextsAt | promptify/processor/prompt_processor.py:49 | one `decode(batch).strip()` per batch, in order |
| PromptProcessing.LoopStateBatches | promptify/processor/prompt_processor.py:47-50 | each pass of the loop appends one batch |
| PromptProcessing.LoopStateStart | promptify/processor/prompt_processor.py:48-50 | with `batch_size <= 1`, `start_idx` never grows above 0 |
| PromptProcessing.BatchLoopNeverExits | promptify/processor/prompt_processor.py:47-50 | with `batch_size <= 1` and at least one token, the loop condition holds after every number of passes and `batches` keeps growing |
| PromptProcessing.BatchSizeTwoSplitsPairs | promptify/processor/prompt_processor.py:48-49 | with `batch_size` 2, two tokens come out as two batches of one token each |
| PromptProcessing.IntendedBatches | promptify/processor/prompt_processor.py:43-51 | batches of `batch_size` tokens cover every token once, in order; all but the last are full; there are just enough of them |
| PromptProcessing.PromptProcessor.constructor | promptify/processor/prompt_processor.py:12-14 | stores the model name, the token limit and the encoding |
| PromptProcessing.PromptProcessor.GetTokenCount | promptify/processor/prompt_processor.py:19-20 | the ValueError of `encode` propagates; otherwise the length of the encoding |
| PromptProcessing.PromptProcessor.AdjustTokenLimit | promptify/processor/prompt_processor.py:22-23 | replaces the token limit and nothing else |
| PromptProcessing.PromptProcessor.BatchPrompt | promptify/processor/prompt_processor.py:43-51 | the ValueError of `encode` propagates; an empty encoding gives []; for `batch_size >= 2` the loop returns the stripped decodings of the `batch_size - 1`-token batches |
| PromptProcessing.PromptProcessor.BatchPromptIntended | promptify/processor/prompt_processor.py:43-51 | the ValueError of `encode` propagates; with `end_idx = start_idx + batch_size`, the loop ends for every `batch_size >= 1` and returns the stripped decodings of the `batch_size`-token batches |
| PromptProcessing.PromptProcessor.TrimPrompt | promptify/processor/prompt_processor.py:54-65 | ValueError for a mode other than "pre"/"post", checked first; ValueError for an empty prompt; then the ValueError of `encode`; otherwise the decoding of `TrimTokens` |
| Classification.ExamplesSectionShape | promptify/prompts/nlp/classification.py:34-37 | the block is empty exactly when there are no examples; otherwise it starts with "Examples:\n" and has each example's line in order |
| Classification.BinaryPrompt | promptify/prompts/nlp/classification.py:8-41 | IndexError exactly when there are fewer than two labels; otherwise the description line (if any), the header naming `labels[0]` and `labels[1]`, "\n", and the closing input block at the end |
| Classification.BinaryExamplesInserted | promptify/prompts/nlp/classification.py:34-40 | examples only insert their block just before the closing input block |
| Classification.AppendExamples | promptify/prompts/nlp/classification.py:34-37 | appends "Examples:\n" and one line per example |
| Classification.BinaryReadsTwoLabels | promptify/prompts/nlp/classification.py:26-27 | with two or more labels, the prompt is the one for `labels[:2]`: later labels change nothing |
| Classification.Binary | promptify/prompts/nlp/classification.py:8-41 | the step-by-step build equals `BinaryPrompt` |
| Classification.MulticlassPrompt | promptify/prompts/nlp/classification.py:43-76 | always succeeds; the header embeds the whole label list, then "\n\n"; the closing input block ends it |
| Classification.MulticlassExamplesInserted | promptify/prompts/nlp/classification.py:69-75 | examples only insert their block just before the closing input block |
| Classification.Multiclass | promptify/prompts/nlp/classification.py:43-76 | the step-by-step build equals `MulticlassPrompt` |
| Classification.MultilabelHeaderMentions | promptify/prompts/nlp/classification.py:106-120 | every header opens with the system's name (naming the domain when one is given) and `n_output_labels`; with labels it closes with the label list and the format, otherwise with the category sentence |
| Classification.MultilabelPrompt | promptify/prompts/nlp/classification.py:78-140 | the description line (if any), the header, "\n", and the closing input block at the end |
| Classification.MultilabelOneShotInserted | promptify/prompts/nlp/classification.py:125-127 | `one_shot` inserts the fixed example right after the header, before any caller example |
| Classification.MultilabelExamplesInserted | promptify/prompts/nlp/classification.py:130-136 | caller examples are inserted just before the closing input block, one line each in order, labels as a dict keyed "0".."k-1" |
| Classification.Multilabel | promptify/prompts/nlp/classification.py:78-140 | the branch-by-branch build equals `MultilabelPrompt` |
| Ner.NerHeaderMentions | promptify/prompts/nlp/ner.py:26-37 | with a domain the header names it in its opening; with labels it closes with the label list and the typed format; with a domain and no labels the format names the domain |
| Ner.NerPrompt | promptify/prompts/nlp/ner.py:4-54 | the description line (if any), the header, "\n", and the closing input block at the end |
| Ner.NerOneShotInserted | promptify/prompts/nlp/ner.py:42-44 | `one_shot` inserts the fixed medical example right after the header, before any caller example |
| Ner.NerExamplesInserted | promptify/prompts/nlp/ner.py:47-50 | caller examples are inserted just before the closing input block, with no "Examples:" header |
| Ner.NerMethod | promptify/prompts/nlp/ner.py:4-54 | the step-by-step build equals `NerPrompt` |
| QuestionAnswering.QaGenPrompt | promptify/prompts/nlp/question_answering.py:7-21 | opens with the domain expert's name and `total_questions` when a domain is given, else the generic opening; ends with `max_QA_tokens`, the format and the passage block |
| QuestionAnswering.QaHeaderDomain | promptify/prompts/nlp/question_answering.py:36-39 | a domain only inserts " {domain} domain" after "You are a highly intelligent"; both headers end with the answer format |
| QuestionAnswering.QaPrompt | promptify/prompts/nlp/question_answering.py:24-59 | the description line (if any), the header, "\n\n", and the question block at the end |
| QuestionAnswering.QaExampleAlwaysIncluded | promptify/prompts/nlp/question_answering.py:45-52 | the fixed example is always right after the header and the blank line |
| QuestionAnswering.QaExamplesInserted | promptify/prompts/nlp/question_answering.py:54-56 | caller examples are inserted after the fixed example, just before the question block |
| QuestionAnswering.Qa | promptify/prompts/nlp/question_answering.py:24-59 | the step-by-step build equals `QaPrompt` |
| Summarization.SummaryPrompt | promptify/prompts/nlp/summary.py:1-17 | a domain-naming header when a domain is given, else the generic one; both end with the same `[{'S': ...},]` format and the passage block |
| Conversation.GetConversationSchema | promptify/utils/conversation_utils.py:4-41 | ids and name copied; `api_key` absent; every other metadata entry kept; participants User (not a bot) and Assistant (a bot); no messages |
| Conversation.ApiKeyIgnored | promptify/utils/conversation_utils.py:18 | passing `api_key`, with any value, makes no difference to the schema |
| Conversation.SchemaMetadataStable | promptify/utils/conversation_utils.py:18-26 | rebuilding from a schema's own metadata gives the same schema |

## Findings

| source | as written | input that shows it | evidently intended | confidence | as-written member | corrected member |
|---|---|---|---|---|---|---|
| promptify/processor/prompt_processor.py:62 | `tokens[-self.token_limit:]` keeps the whole list when `token_limit` is 0, since `-0` is `0` | `token_limit` 0, mode "pre", a prompt with at least one token | keep the last `token_limit` tokens, i.e. none | not executed | PromptProcessing.TrimZeroPreKeepsAll | PromptProcessing.TrimTokensIntended |
| promptify/processor/prompt_processor.py:48-49 | `end_idx = start_idx + batch_size - 1` with an exclusive slice end gives batches of `batch_size - 1` tokens | `batch_size` 2 on a two-token prompt gives two one-token batches | batches of `batch_size` tokens | not executed | PromptProcessing.BatchSizeTwoSplitsPairs | PromptProcessing.PromptProcessor.BatchPromptIntended |
| promptify/processor/prompt_processor.py:47-50 | with `batch_size` 1, `end_idx` equals `start_idx`, so `start_idx` never advances | `batch_size` 1 with any prompt that encodes to at least one token never returns | the loop ends for every `batch_size >= 1` | not executed | PromptProcessing.BatchLoopNeverExits | PromptProcessing.PromptProcessor.BatchPromptIntended |

The as-written `trim_prompt` is `PromptProcessing.TrimTokens`, used by `PromptProcessor.TrimPrompt`. `TrimAgreesForPositiveLimit` shows it agrees with the intended trimming for every positive limit.

The as-written `batch_prompt` is `PromptProcessor.BatchPrompt`. `BatchSizeTwoSplitsPairs` exhibits the one-token batches. `IntendedBatches` states the properties of the corrected batching.

`TrimPrompt` and `BatchPrompt` keep the behaviour of the code; the corrected members stand beside them.

## Left out

- **`eval` and `ast.literal_eval`:**
  - `eval` and `literal_eval` are opaque evaluators.
  - `eval` executing code, seeing local names (`eval("json_str")`) or not terminating is not modelled.
  - Every call site of `eval` catches every `Exception`, so `None` stands for all of them. A `BaseException` such as `SystemExit` raised by evaluated code escapes `complete_json_object` and `get_possible_completions` (`parser.py:55`, `parser.py:74`); that is not modelled.
  - `literal_eval` reports its exception by name; a subclass of ValueError or SyntaxError is reported under its base class's name, which is not modelled separately.
- **`len(str(x))`** is the opaque `size`.
- **`re` engine:** the regular expression in `extract_complete_objects` is replaced by an equivalent left-to-right scanner. `re` itself is not modelled.
- **`Parser.escaped_` and the three-argument `get_combinations(alphabet, n, should_end_mark)`:** the tests and adapters call them, but `parser.py` does not define them. They are not part of this model.
- **Diagnostic prints:** `print`s in `extract_complete_objects` (`parser.py:158`, `parser.py:167`), `print("a")` in `multilabel` (`classification.py:131`) and the `verbose` print in `nlp_prompter.py:159-161` are side effects that change no result.
- **Filesystem and jinja work:** it is opaque. This covers:
  - searching template folders and reading `metadata.json` (`_load_template_from_path`, `_get_metadata`, `_verify_template_path`);
  - `list_templates` and `TemplateLoader.get_template_variables`;
  - the whole of `get_available_templates`, `verify_template_path`, `load_multiple_templates` (which adds uuid keys) and `get_multiple_template_variables` in `nlp_prompter.py`;
  - `Environment`, `get_template` and `render`.
  - A jinja compile error for a `from_string` template is not modelled.
- **`model.run.__code__` introspection:** the names `model.run` accepts are given to `TaskPrompter.Prompter` as a list. `model_args_count` is not modelled. `NlpPrompter.Prompter` computes the same `model_args_count` and `model_variables` (`nlp_prompter.py:34-37`), but nothing reads them, so the model leaves these fields out.
- **Template variables:** `meta.find_undeclared_variables` returns a set. The model takes the variables as a list in a fixed but unspecified order, so the order of names in the missing-variable message is that order.
- **`NlpPrompter.Prompter.constructor`:** it copies `default_variable_values`. Python keeps the caller's dict, so later `update` calls also change the caller's dict; that aliasing is not modelled.
- **`NlpPrompter.Prompter.Generated`:**
  - `text_input` is modelled as a string.
  - With no template path, `load_template(None)` is modelled as the TypeError `os.path.isfile(None)` raises.
- **`TemplateLoading.ModelSample`:** every sample has a `models` list, so the KeyError of a sample without one is not modelled.
- **Collaborators that stay total:**
  - tiktoken's `decode` is applied only to slices of tokens `encode` produced, and it replaces undecodable bytes rather than raising.
  - `repr` of a string never raises.
  - `size`, which is `len(str(x))`, is applied only to values `eval` produced.
  - A custom `__str__` that raises inside `size` is not modelled.
- **`TaskPrompter.Prompter.Fit`:** it requires that the kwargs contain neither "template_name" nor "self". Python refuses such a call before `fit` runs.
- **`TaskPrompter.FirstOutput`:** the TypeError of a "prompts" keyword passed twice to `model.run` is modelled.
- **`PromptCaching.PromptCache`:** keys are strings, which are the prompts the prompter stores under; any other hashable key is not modelled.
- **`PromptProcessing.PromptProcessor.constructor`:**
  - It does not model the OpenAI client set-up. `__init__` refers to an `openai` that is never imported (`prompt_processor.py:8`).
  - tiktoken is the opaque `encode`/`decode`.
  - `shorten_prompt`, `split_prompt` and `generate_summary` are left out: they use an unimported `textwrap`, call the result of `decode(prompt)`, or go to the network.
- **`PromptProcessing.PromptProcessor.BatchPrompt`:** it requires `batch_size >= 2` or an empty encoding, because otherwise the source loop does not terminate (`BatchLoopNeverExits`).
- **`Ner.NerHeaderMentions`:** it states what each header contains. It does not state that the labels or the domain are absent from headers built without them.
- **`Classification.MultilabelHeaderMentions`:** it states what each header contains. It does not state that the labels or the domain are absent from headers built without them.
- **`QuestionAnswering.QaGenPrompt` and `Summarization.SummaryPrompt`:** they state how the prompt starts and ends. They do not state that the domain is absent when none is given.
- **`QuestionAnswering.QaGenPrompt`:** `total_questions` and `max_QA_tokens` have no type hint (`question_answering.py:10-11`). They are modelled as ints printed with `str`; other values formatted by an f-string are not modelled.
- **`Text.Strip`:** white space is Python's `str.isspace()` character list; no Unicode normalisation is modelled.
- **Outside this model:** the language-model adapters, the pipelines, the metrics, and the I/O and data helpers of the repository. They are network clients, orchestration or file handling around the modelled core.
