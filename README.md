# Task extractor: a verified model

This project models the task extractor agent of a personal-automation engine. The agent reads free text such as morning pages. It asks a language model to list the actionable tasks in that text, parses the reply into task records, and enriches each task with a "pre-flight" brief drawn from a memory system. It then applies the agent's constraints: P1 is downgraded to P2, confirmation rules are applied, and tasks below confidence 0.6 are dropped. Finally it publishes the surviving tasks to Todoist. Besides the agent, the model covers the two clients the agent relies on: the unified AI model client (OpenAI and Anthropic) and the Todoist REST client.

Layout, one Dafny module per component:

| file | module | component |
|---|---|---|
| `wrappers.dfy` | `Wrappers` | `Option` |
| `text.dfy` | `Text` | string helpers: ASCII lower-casing, `str.strip`, substring search, line splitting, joining |
| `task_model.dfy` | `TaskModel` | `ExtractedTask`, a class whose fields the agent updates in place, and its value snapshot `TaskRecord` |
| `todoist.dfy` | `Todoist` | `TodoistClient`: listing projects and sections, lookups by name, priority mapping, task creation |
| `ai_models.dfy` | `AiModels` | `AIModelClient`: client initialisation, routing by model name, alias resolution, cost estimation |
| `prompts.dfy` | `Prompts` | system prompt and extraction prompt |
| `parsing.dfy` | `Parsing` | bracketed-JSON extraction and the bullet/numbered-line fallback parser |
| `enrichment.dfy` | `Enrichment` | pre-flight brief from memory search |
| `constraints.dfy` | `Constraints` | priority clamp, confirmation rules, confidence filter |
| `publishing.dfy` | `Publishing` | conversion of extracted tasks into Todoist tasks, and their creation |
| `extraction.dfy` | `Extraction` | the whole pipeline and its entry points |

Each step that mutates task objects is a method over `ExtractedTask` objects: parsing, enrichment, validation and publishing. Each method is proved against a pure function over `TaskRecord` sequences. The properties of the pipeline are proved as lemmas about those functions. The remote services are function-valued parameters that act as oracles: the OpenAI and Anthropic endpoints, the Todoist endpoints, the memory search and the JSON decoder.

Four points of the code's behaviour that are easy to misread:

- A task flagged for confirmation need not carry a reason. Validation sets a reason only when it flags the task itself. A task the model returns already flagged, with no reason, keeps a null reason (`Constraints.FlagWithoutReasonSurvives`).
- The fallback parser's regular expressions run over the whole text, not line by line. A `\s*` in them can cross a line break (`Parsing.FindAllCrossesLines`).
- `map_priority_to_todoist` maps P1, P2, P3 and P4 to 4, 3, 2 and 1, and maps every other label to 1 (`Todoist.MapPriorityToTodoist`).
- The fallback parser makes tasks with confidence 0.5, and validation keeps only confidence 0.6 and above. So no fallback task ever reaches the caller (`Extraction.UndecodedReplyExtractsNothing`).

## Model

In the source column, paths are relative to the repository root.

| member | source | states |
|---|---|---|
| Text.Lower | engine/agents/task_extractor.py:434 | `str.lower` on ASCII: the same length, with each character lowered on its own |
| Text.StripIsSlice | engine/agents/task_extractor.py:347 | `str.strip` returns a slice of its input: only whitespace is cut from either end, and the result neither starts nor ends with whitespace |
| Text.Lines | engine/agents/task_extractor.py:239 | the lines `^`/`$` anchor on under `re.MULTILINE`: at least one line, and no line holds a line break |
| Text.LinesJoin | engine/agents/task_extractor.py:239 | joining the lines with line breaks gives back the text |
| TaskModel.DefaultRecord | engine/agents/task_extractor.py:41-51 | the dataclass defaults: priority P3, confidence 0.0, no project, due date or context, not flagged, no reason |
| TaskModel.ExtractedTask.constructor | engine/agents/task_extractor.py:41-51 | a new task object holds exactly the given field values |
| TaskModel.Records | engine/agents/task_extractor.py:41-51 | the field values of a list of task objects, position by position |
| Todoist.GetProjects | engine/integrations/todoist_client.py:96-115 | `[]` without a token or when the listing fails; otherwise exactly the listed projects |
| Todoist.GetSections | engine/integrations/todoist_client.py:117-139 | `[]` without a token or on failure; otherwise the sections, filtered by project only when a non-empty project id is given |
| Todoist.FirstNamed | engine/integrations/todoist_client.py:141-157 | the first element whose name equals the given name ignoring case; none exactly when no element matches |
| Todoist.FindSectionByName | engine/integrations/todoist_client.py:141-147 | the first of the project's sections whose name matches, ignoring case; not found exactly when no section of that project matches |
| Todoist.FindProjectByName | engine/integrations/todoist_client.py:149-157 | the first listed project whose name matches, ignoring case; not found exactly when no listed project matches |
| Todoist.MapPriorityToTodoist | engine/integrations/todoist_client.py:228-235 | the result lies in 1..4; 4 iff P1, 3 iff P2, 2 iff P3, 1 iff any other label |
| Todoist.TaskData | engine/integrations/todoist_client.py:170-194 | the request body holds a field exactly when the task has a truthy value for it, and that field holds that value |
| Todoist.TaskDataShape | engine/integrations/todoist_client.py:171-192 | content and priority are always sent; at most one due field is sent, and one is sent iff the task has a due string, date or datetime |
| Todoist.CreateTaskResult | engine/integrations/todoist_client.py:159-212 | a dry run is simulated with id `dry-run-id`; no token fails with the missing-token error; success iff dry run or a successful POST; non-created results echo the task content; created results carry the reply's id, content and URL |
| Todoist.CreateTask | engine/integrations/todoist_client.py:159-212 | the method's result is `CreateTaskResult` |
| Todoist.CreateMultipleTasks | engine/integrations/todoist_client.py:214-226 | one result per task, in order, each that task's `CreateTaskResult` |
| AiModels.InitializeClients | engine/integrations/ai_models.py:41-59 | a provider client exists iff its library is available and its API key is non-empty, and it is the given endpoint |
| AiModels.Route | engine/integrations/ai_models.py:61-78 | OpenAI iff the name starts with `gpt-` or `o1-`; Anthropic iff it does not and starts with `claude-` |
| AiModels.ResolveAlias | engine/integrations/ai_models.py:95-101 | a `-latest` name in the alias table maps to its pinned name; every other name is unchanged |
| AiModels.ResolveAliasIdempotent | engine/integrations/ai_models.py:95-101 | resolving an alias twice gives the same name as resolving it once, for both providers |
| AiModels.ResolveAliasKeepsRoute | engine/integrations/ai_models.py:95-101 | the resolved name is still routed to the same provider |
| AiModels.EstimateCost | engine/integrations/ai_models.py:200-227 | under positive pricing, the cost is non-negative, and zero iff no tokens were used |
| AiModels.EstimateOpenAiCost | engine/integrations/ai_models.py:200-213 | the OpenAI estimate is non-negative, and zero iff no tokens were used |
| AiModels.EstimateAnthropicCost | engine/integrations/ai_models.py:215-227 | the Anthropic estimate is non-negative, and zero iff no tokens were used |
| AiModels.EstimateCostAdditive | engine/integrations/ai_models.py:210-213 | the cost of two usages together is the sum of their costs |
| AiModels.MiniCheaperThanFull | engine/integrations/ai_models.py:203-206 | on the same usage, gpt-4o-mini never costs more than gpt-4o, nor claude-3-haiku more than claude-3-5-sonnet |
| AiModels.FailureResponse | engine/integrations/ai_models.py:84-91 | a failed response: empty content, zero tokens and cost, the error recorded |
| AiModels.OpenAiMessages | engine/integrations/ai_models.py:104-107 | a system message comes first iff the system prompt is non-empty, then the user message |
| AiModels.CallOpenAi | engine/integrations/ai_models.py:80-141 | no client fails with "OpenAI client not available"; otherwise the resolved model is asked at temperature 0.1, and its completion, total tokens and estimated cost are returned, or its exception becomes a failure |
| AiModels.CallAnthropic | engine/integrations/ai_models.py:143-198 | no client fails; otherwise the resolved model gets the system prompt (or `""`) and the user message, and the response holds the text, input plus output tokens and the estimated cost, or the failure |
| AiModels.CallModel | engine/integrations/ai_models.py:61-78 | dispatches by `Route`, and an unknown name fails with "Unknown model: ..."; success implies a routed provider whose client exists |
| Prompts.HeadingsOf | engine/agents/task_extractor.py:239 | every heading found is non-empty and comes from a line `### <heading>` |
| Prompts.Headings | engine/agents/task_extractor.py:239 | `re.findall(r'^### (.+)$', ..., re.MULTILINE)`: every heading is a non-empty single line taken from a `### ` line of the text |
| Prompts.HeadingsOfConcat | engine/agents/task_extractor.py:239 | the headings of two runs of lines are the headings of the first run followed by those of the second |
| Prompts.HeadingsOfSingle | engine/agents/task_extractor.py:239 | a single line gives its text after `### ` when it is a heading line, and nothing otherwise |
| Prompts.HeadingsOfCaptures | engine/agents/task_extractor.py:239-240 | every heading line is captured, in order: the heading of line k comes right after the headings of the lines before it |
| Prompts.ActiveProjects | engine/agents/task_extractor.py:232-240 | at most five; none without the projects file; otherwise a prefix of its headings: all of them when there are at most five, and exactly five when there are more |
| Prompts.AllowedCategories | engine/agents/task_extractor.py:243-248 | the categories of the first `project_assignment` decision, or none when no decision has them |
| Prompts.ListOr | engine/agents/task_extractor.py:253-254 | the default when the list is empty, else the items joined by `, ` |
| Prompts.SystemPrompt | engine/agents/task_extractor.py:228-286 | the prompt holds the active-projects line followed by the allowed-categories line |
| Prompts.ExtractionPrompt | engine/agents/task_extractor.py:288-301 | the prompt holds `SOURCE: <source>`, `TEXT:` and the text, each on its own line |
| Parsing.FromRawEmpty | engine/agents/task_extractor.py:315-324 | a decoded object with no fields gives the default task with empty content |
| Parsing.FirstIndexOf | engine/agents/task_extractor.py:309 | the first occurrence of a character, or none exactly when it does not occur |
| Parsing.LastIndexOf | engine/agents/task_extractor.py:309 | the last occurrence of a character, or none exactly when it does not occur |
| Parsing.BracketPairIff | engine/agents/task_extractor.py:309 | the first `[` precedes the last `]` iff some `[` precedes some `]` |
| Parsing.JsonSpan | engine/agents/task_extractor.py:309-311 | greedy `\[.*\]` with DOTALL: a match exists iff a `[` precedes a `]`, and the match runs from the first `[` to the last `]` |
| Parsing.DigitRunEnd | engine/agents/task_extractor.py:341 | `\d+` is greedy: the run ends at the first non-digit |
| Parsing.SpaceRunEnd | engine/agents/task_extractor.py:340-341 | `\s*` is greedy: the run ends at the first non-space |
| Parsing.LineEnd | engine/agents/task_extractor.py:340-341 | `.+` stops at the line break: the run ends at the first `\n` |
| Parsing.MarkEnd | engine/agents/task_extractor.py:340-341 | a bullet mark or a `digits.` mark, when present, ends after the position where it starts |
| Parsing.GroupStart | engine/agents/task_extractor.py:340-341 | backtracking through `\s*`: the last position before the run's end that is not a line break, or none when only line breaks remain |
| Parsing.MatchAt | engine/agents/task_extractor.py:340-341 | a match at a position captures a non-empty group after the mark, and the group holds no line break |
| Parsing.FindAll | engine/agents/task_extractor.py:345 | every captured group is non-empty, holds no line break, and occurs in the text |
| Parsing.BulletItemFound | engine/agents/task_extractor.py:340-345 | a single line `- <item>` is matched with `<item>` as its only capture |
| Parsing.NumberedItemFound | engine/agents/task_extractor.py:341-345 | a single line `1. <item>` is matched with `<item>` as its only capture |
| Parsing.FindAllCrossesLines | engine/agents/task_extractor.py:340 | `\s*` crosses blank lines: the bullet `-` on one line captures `book` two lines below |
| Parsing.FindAllBacktracks | engine/agents/task_extractor.py:340 | a bullet followed only by a space captures that space through backtracking |
| Parsing.KeptItems | engine/agents/task_extractor.py:346-352 | no more tasks than items |
| Parsing.KeptItemsExact | engine/agents/task_extractor.py:346-352 | an item yields a task iff its stripped text is longer than 10 characters, and every task comes from such an item |
| Parsing.Take | engine/agents/task_extractor.py:354 | `xs[:n]`: a prefix of at most `n` items, and the whole list when it is short enough |
| Parsing.StripItemIn | engine/agents/task_extractor.py:347-349 | the stripped item holds no line break and still occurs in the text |
| Parsing.FallbackRecordShape | engine/agents/task_extractor.py:347-352 | a kept item's task: stripped content of more than 10 characters from one line of the text, P3, confidence 0.5, nothing else set |
| Parsing.KeptItemsShape | engine/agents/task_extractor.py:346-352 | every task kept from matched items has the fallback shape |
| Parsing.PatternsKeptShape | engine/agents/task_extractor.py:344-352 | every task kept from either pattern has the fallback shape |
| Parsing.FallbackRecords | engine/agents/task_extractor.py:334-354 | exactly the first 10 of the tasks kept from bullet items followed by numbered items, or all of them when there are fewer |
| Parsing.FallbackRecordsShape | engine/agents/task_extractor.py:334-354 | every fallback task has the fallback shape |
| Parsing.BulletLineBecomesTask | engine/agents/task_extractor.py:334-354 | a bullet line whose item is longer than 10 characters becomes the first fallback task |
| Parsing.DecodedRecords | engine/agents/task_extractor.py:314-325 | one task per decoded object, in order, missing fields defaulted |
| Parsing.ParsedRecords | engine/agents/task_extractor.py:303-332 | no bracketed span gives no tasks; a decoded span gives its objects; a decoding error gives the fallback tasks of the whole reply |
| Parsing.NoSpanNoTasks | engine/agents/task_extractor.py:309-310 | a reply without `[` gives no tasks, whatever bullet lines it holds |
| Parsing.KeepItem | engine/agents/task_extractor.py:347-352 | appends a new task exactly when the item is long enough; the tasks stay distinct objects |
| Parsing.KeepItems | engine/agents/task_extractor.py:346-352 | the loop's new task objects hold `KeptItems` |
| Parsing.FallbackTextParsing | engine/agents/task_extractor.py:334-354 | the method's new, distinct task objects hold `FallbackRecords` |
| Parsing.ParseAiResponse | engine/agents/task_extractor.py:303-332 | the method's new, distinct task objects hold `ParsedRecords` |
| Constraints.AnyKeywordIn | engine/agents/task_extractor.py:435 | true iff some keyword occurs in the text |
| Constraints.LowerIdempotent | engine/agents/task_extractor.py:434 | lower-casing twice is lower-casing once |
| Constraints.KeywordTestsIgnoreCase | engine/agents/task_extractor.py:428-453 | each keyword test gives the same answer on the lower-cased content |
| Constraints.LowerConcat | engine/agents/task_extractor.py:434 | lower-casing distributes over concatenation |
| Constraints.KeywordRecognised | engine/agents/task_extractor.py:428-453 | content holding a lower-case keyword, in any case and at any place, is recognised |
| Constraints.RuleOf | engine/agents/task_extractor.py:409-418 | each of the three rule names is recognised exactly by its own name |
| Constraints.RecognisesByRule | engine/agents/task_extractor.py:410-418 | each rule fires exactly when its keyword test does; an unknown rule never fires |
| Constraints.RuleReason | engine/agents/task_extractor.py:409-418 | a rule gives a reason iff it fires on the content, and the reason is that rule's fixed text |
| Constraints.ApplyVerdictsFrame | engine/agents/task_extractor.py:409-418 | the rule loop changes only the confirmation flag and reason |
| Constraints.ApplyVerdictsFlag | engine/agents/task_extractor.py:409-418 | the flag ends up raised iff it was raised or some verdict fires |
| Constraints.LastVerdictWins | engine/agents/task_extractor.py:409-418 | the reason is the last firing verdict's, or is unchanged when none fires |
| Constraints.SilentVerdicts | engine/agents/task_extractor.py:409-418 | with no verdict firing, the task is unchanged |
| Constraints.ApplyRulesSnoc | engine/agents/task_extractor.py:409-418 | applying rules then one more rule is applying that rule to the result |
| Constraints.ApplyRulesFrame | engine/agents/task_extractor.py:409-418 | rules change neither content, project, priority, due date, context nor confidence |
| Constraints.ApplyRulesFlag | engine/agents/task_extractor.py:409-418 | the flag is raised after the rules iff it was already raised or some rule fires; rules never lower it |
| Constraints.LastFiringRuleWins | engine/agents/task_extractor.py:409-418 | the reason is that of the last rule that fires, or is unchanged when none fires |
| Constraints.UnknownRulesIgnored | engine/agents/task_extractor.py:409-418 | rules with unknown names leave the task unchanged |
| Constraints.Downgrade | engine/agents/task_extractor.py:401-404 | never P1: P1 becomes P2, flagged with the downgrade reason; any other task is unchanged; only priority and confirmation fields change |
| Constraints.ConstrainShape | engine/agents/task_extractor.py:399-418 | never P1; P1 becomes P2 and other priorities are kept; only priority and confirmation change; flagged iff already flagged, P1, or some rule fires |
| Constraints.ConstrainKeepsConfidence | engine/agents/task_extractor.py:399-418 | content and confidence are kept, and no P1 remains |
| Constraints.RaisedFlagHasReason | engine/agents/task_extractor.py:401-418 | a flag the constraints raise always comes with the downgrade reason or a rule's reason |
| Constraints.LastFiring | engine/agents/task_extractor.py:409-418 | after a firing rule there is a last firing rule |
| Constraints.FlagWithoutReasonSurvives | engine/agents/task_extractor.py:399-418 | a task that arrives flagged without a reason, and that no constraint touches, leaves flagged without a reason |
| Constraints.KeptPositions | engine/agents/task_extractor.py:421-422 | the positions of kept tasks are in range |
| Constraints.KeptPositionsExact | engine/agents/task_extractor.py:421-422 | the kept positions increase strictly, and a position is kept iff its task has confidence at least 0.6 |
| Constraints.ConfidentAtPositions | engine/agents/task_extractor.py:421-422 | the filter keeps the same positions for any list of equal confidences, position by position |
| Constraints.ConstrainAllKeepsConfidence | engine/agents/task_extractor.py:399-418 | constraining a list keeps every task's confidence |
| Constraints.PositionsOfPrefix | engine/agents/task_extractor.py:421-422 | the kept positions among the first `i` tasks depend only on those tasks |
| Constraints.Confident | engine/agents/task_extractor.py:421-422 | the filter never grows the list |
| Constraints.ConfidentMembers | engine/agents/task_extractor.py:421-422 | a task is kept iff it is in the list with confidence at least 0.6 |
| Constraints.ValidatedAreConfident | engine/agents/task_extractor.py:394-426 | no validated task is P1, and every one has confidence at least 0.6 |
| Constraints.ValidatedInOrder | engine/agents/task_extractor.py:399-426 | validation's output is, in order, each task with confidence at least 0.6 after its own constraints, and nothing else |
| Constraints.ValidateIsFilterThenConstrain | engine/agents/task_extractor.py:394-426 | validation is the confidence filter followed by the constraints, because the constraints never touch confidence |
| Constraints.ApplyConfirmationRules | engine/agents/task_extractor.py:407-418 | the rule loop leaves the task holding `ApplyRules` of its old fields |
| Constraints.ConstrainTask | engine/agents/task_extractor.py:400-418 | the task then holds `Constrain` of its old fields |
| Constraints.ConstrainAt | engine/agents/task_extractor.py:399-418 | only the task at the given position changes |
| Constraints.ValidateAndConstrainTasks | engine/agents/task_extractor.py:394-426 | returns `ValidateRecords` of the old tasks, as the same objects; every input object is constrained in place, the dropped ones included |
| Constraints.ConstrainEach | engine/agents/task_extractor.py:399-425 | the loop constrains each task and collects the kept positions in order |
| Constraints.ValidateTaskAt | engine/agents/task_extractor.py:400-424 | one loop step: constrain task `i`, and keep it iff confident |
| Enrichment.Snippet | engine/agents/task_extractor.py:375 | content up to 150 characters is kept whole; longer content becomes its first 150 characters followed by `...` |
| Enrichment.BriefListsEveryHit | engine/agents/task_extractor.py:378-381 | the brief starts with the `PRE-FLIGHT CONTEXT` header and holds every hit's line |
| Enrichment.HitLineEndsWithSnippet | engine/agents/task_extractor.py:375-378 | a hit's line ends with its snippet, and names `unknown` when the hit has no source |
| Enrichment.ExtendContext | engine/agents/task_extractor.py:382-385 | the new context ends with the brief; a non-empty old context stays in front, followed by a newline; otherwise the context is the brief alone |
| Enrichment.EnrichRecord | engine/agents/task_extractor.py:362-388 | only the context changes, and only when the search returns at least one hit |
| Enrichment.EnrichRecords | engine/agents/task_extractor.py:356-392 | the same number of tasks; all unchanged when there is no memory system; otherwise each task enriched on its own, from its own search |
| Enrichment.EnrichmentOnlyAddsContext | engine/agents/task_extractor.py:356-392 | every field but the context is kept; a non-empty old context is a prefix of the new one; a changed context holds the brief header |
| Enrichment.FailedSearchLeavesTask | engine/agents/task_extractor.py:370-392 | a task whose search failed or found nothing is left exactly as it was |
| Enrichment.EnrichTask | engine/agents/task_extractor.py:363-388 | the task then holds `EnrichRecord` of its old fields |
| Enrichment.EnrichAt | engine/agents/task_extractor.py:362-390 | only the task at the given position changes |
| Enrichment.EnrichTasksWithContext | engine/agents/task_extractor.py:356-392 | returns the same objects in the same order, holding `EnrichRecords` of their old fields |
| Publishing.Keys | engine/agents/task_extractor.py:462 | the project names in map order |
| Publishing.Put | engine/agents/task_extractor.py:462 | dict assignment: an existing name keeps its place, other entries are kept, and a new name is appended; the pair is then present |
| Publishing.Lookup | engine/agents/task_extractor.py:479-480 | none exactly when the name is not a key |
| Publishing.LastIdNamed | engine/agents/task_extractor.py:462 | the id of the last project with that name, or none exactly when no project has it |
| Publishing.PutKeys | engine/agents/task_extractor.py:462 | keys after an insert: unchanged when the name is present, else one name appended |
| Publishing.PutUnique | engine/agents/task_extractor.py:462 | inserting keeps keys unique |
| Publishing.LookupPut | engine/agents/task_extractor.py:462 | after an insert, the name looks up the new id and every other key is unaffected |
| Publishing.ProjectMapLookup | engine/agents/task_extractor.py:461-462 | the project map has unique names, and each name maps to the id of the last project so named |
| Publishing.FuzzyMatch | engine/agents/task_extractor.py:483-487 | the id of the first entry whose name contains the project, or is contained in it, ignoring case; none exactly when no entry resembles it |
| Publishing.FindFuzzyProject | engine/agents/task_extractor.py:483-487 | the loop with early exit returns `FuzzyMatch` |
| Publishing.ProjectIdFor | engine/agents/task_extractor.py:473-487 | no project gives no id; a truthy exact id is used as is; otherwise the first fuzzy match; with no fuzzy match, the falsy exact lookup |
| Publishing.ExactNameIsPlaced | engine/agents/task_extractor.py:479-487 | a non-empty project name present in the map always gets an id |
| Publishing.SectionIdFor | engine/agents/task_extractor.py:489-496 | a section id only with a project id, and then the id of that project's first section named `backlog` ignoring case; none when it has no such section |
| Publishing.DescriptionParts | engine/agents/task_extractor.py:499-504 | the extraction note is always present; the context line comes first when there is a context; the flag line comes last when flagged |
| Publishing.DescriptionLayout | engine/agents/task_extractor.py:499-504 | the first part is the context line iff there is a context, the last part is the flag line iff flagged, and there are 1 to 3 parts accordingly |
| Publishing.ConvertedTaskShape | engine/agents/task_extractor.py:473-513 | the Todoist task keeps the content, has the due date as due string, has priority 4 iff P1, and its description holds the note, the context and the flag as applicable; a section only with a project |
| Publishing.Outgoing | engine/agents/task_extractor.py:466-515 | no more tasks are sent than were extracted |
| Publishing.OutgoingIsUnheld | engine/agents/task_extractor.py:466-515 | a task is sent iff it is not held back for confirmation; in a dry run, everything is sent |
| Publishing.UnheldPositions | engine/agents/task_extractor.py:468-470 | the positions of the tasks not held back are in range |
| Publishing.UnheldPositionsExact | engine/agents/task_extractor.py:468-470 | those positions increase strictly, and a position is among them iff its task is not held back |
| Publishing.OutgoingAtPositions | engine/agents/task_extractor.py:466-515 | the sent tasks are, in order, exactly the conversions of the tasks not held back |
| Publishing.UnflaggedAllSent | engine/agents/task_extractor.py:466-515 | when nothing is flagged, every task is converted and sent, in order |
| Publishing.PlaceTask | engine/agents/task_extractor.py:473-496 | the method computes `ProjectIdFor` and `SectionIdFor` |
| Publishing.Describe | engine/agents/task_extractor.py:499-504 | the method builds `DescriptionParts` |
| Publishing.ConvertTask | engine/agents/task_extractor.py:473-513 | the method builds `ToTodoistTask` |
| Publishing.CreateTodoistTasks | engine/agents/task_extractor.py:455-520 | one creation result per outgoing task, in order, each that task's `CreateTaskResult` under the project map built from the listed projects |
| Extraction.FirstPresent | engine/agents/task_extractor.py:103-110 | the value of the first key present, none exactly when no key is present |
| Extraction.ExtractParams | engine/agents/task_extractor.py:98-118 | the source is `data["source"]` when present, else `unknown` |
| Extraction.ExtractParamsReadsFourKeys | engine/agents/task_extractor.py:98-118 | the text is the first present of `text`, `content`, `input`, else the sample text; nothing but these four keys decides the result |
| Extraction.InputParams | engine/agents/task_extractor.py:196-224 | a dict or an object is read with `_extract_params_from_dict`; a string is the text itself; no input gives the no-input text; anything else gives its shown form; those three have source `unknown` |
| Extraction.ExtractedFromReply | engine/agents/task_extractor.py:178-192 | a failed model call gives no tasks |
| Extraction.ExtractedAreValid | engine/agents/task_extractor.py:159-192 | whatever the model answers, no extracted task is P1 and each has confidence at least 0.6 |
| Extraction.UnservedModelExtractsNothing | engine/agents/task_extractor.py:166-180 | a preferred model that no provider serves, or whose client is missing, extracts nothing |
| Extraction.EnrichmentKeepsSurvivors | engine/agents/task_extractor.py:185-189 | enrichment changes neither how many tasks survive validation nor their contents |
| Extraction.NoneConfident | engine/agents/task_extractor.py:421-422 | with no task at confidence 0.6 or above, the filter keeps nothing |
| Extraction.FallbackConfidenceNeverSurvives | engine/agents/task_extractor.py:351 | fallback tasks, at confidence 0.5, never pass validation, enriched or not |
| Extraction.UndecodedReplyExtractsNothing | engine/agents/task_extractor.py:303-332 | a reply without a bracketed span, or one the decoder rejects, extracts no task |
| Extraction.RunPipeline | engine/agents/task_extractor.py:178-192 | after the call: parse, enrich, validate; the tasks hold `ExtractedFromReply` |
| Extraction.ExtractTasksFromTextOriginal | engine/agents/task_extractor.py:159-192 | the model named in the definition (`gpt-4o-mini` by default) is called with both prompts and 1500 tokens; the tasks hold the pipeline's result for its reply |
| Extraction.ExtractTasksFromText | engine/agents/task_extractor.py:194-226 | the pipeline runs on the text and source the input asks for |

## Left out

- HTTP transport and the provider SDKs are left out. The endpoints are oracle functions from a request to a reply or an error. `_make_request`'s method dispatch, headers and URL building are not modelled. A request exception surfaces as the oracle's failure case.
- Logging, the `time.sleep(0.1)` between creations, and `time.time()` in the wrapper's result are left out.
- The memory system is an oracle from query, limit and threshold to hits or a failure. The failure case stands for any exception raised while enriching a task. The `strftime` date arrives as a string already formatted. Whether the memory system could be constructed is an `Option`.
- The JSON decoder is an oracle. It returns decoded objects with optional fields, or a decoding error. A `json.loads` result that is not a list of objects is not modelled, nor is a `float()` conversion that raises. In the source those raise out of `_parse_ai_response`.
- `_load_context_files` reads files, so the loaded context is given as a map from path to text.
- `_safe_method_call`'s result dictionary is not modelled: the success flag, error, timestamp and status, and the conversion of tasks to dictionaries. `ExtractTasksFromText` returns the tasks themselves.
- ExtractTasksFromText: the bare `except:` branch, which reruns on "Default text for testing", is not modelled. Objects are given as their `__dict__` field map, and any other input as its `str()` text.
- FromRaw, DecodedRecords: a JSON `null` field is read as a missing key. In the source a `null` priority stays `None`, passes validation and maps to Todoist priority 1, where the model gives P3 and 2. A `null` content makes the keyword tests' `.lower()` raise, where the model uses the empty string.
- Dictionary and object values are modelled as strings. Values of other types, and JSON `null` for `text`/`source`, are not modelled.
- Lower-casing is ASCII-only, and `\d` matches ASCII digits only. Python's Unicode case mapping is not modelled.
- Floating-point confidences and costs are modelled as exact reals. Rounding in the price products is not modelled.
- The `SelfContainedAgent` base class and `settings.data_root` are not part of this model.
- ValidateAndConstrainTasks: requires its task objects to be distinct. So does EnrichTasksWithContext. The source accepts a list that holds the same object twice. The parser always produces fresh, distinct objects, so the pipeline meets this requirement.
- CreateTodoistTasks: when there are no tasks it returns `[]` early, before listing projects. Listing projects is a pure function of the client, so the saved remote call is not observable in the model.
- The validation loop, the enrichment loop and the task conversion are split into per-task methods: `ConstrainEach`/`ValidateTaskAt`, `EnrichAt`, and `PlaceTask`/`Describe`/`ConvertTask`. The pipeline tail is split out as `RunPipeline`. Together they perform the same steps in the same order as the single source loops.

