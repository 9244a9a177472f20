# code_agent in Dafny

This project models the core of a small code agent. A chat-style web page
sends a task to a Python back end. The back end runs a loop: it streams a
response from a language model and finds the JSON action after an `Action:`
marker. It then runs the tool the action names and records the exchange in
the conversation memory. The loop ends on a `final_answer`, on a response
without an action, or when the iteration budget runs out. The page shows the
streamed events and the workspace files.

Three source files form the core:

- `agent.py`: the agent loop and its action parser.
- `tools.py`: the tool registry, argument validation, dispatch and the pure
  helpers of the chart tool.
- `frontend/app.js`: the pure helpers of the page. These are the file tree,
  line-break formatting, the HTML-file test, and the fold over the
  server-sent event lines of a chat response.

Modules, one per file:

| file | module | models |
|---|---|---|
| `wrappers.dfy` | `Wrappers` | `Option`, for Python's `None` and JavaScript's `undefined` |
| `strings.dfy` | `Strings` | `str.find`, substring tests, `join`, the JavaScript `split` on a set of characters, `split('.').pop()`, ASCII case mapping, global `replace` |
| `json.dfy` | `Json` | decoded JSON values; Python and JavaScript truthiness; Python `in`, `d[k]`, `.get`, `dict.update`, `str()`; JavaScript `String()` and property access |
| `tools.py` ↦ `tools.dfy` | `Tools` | `ToolDefinition`, `all_params`, `TOOLS`, `to_prompt_format`, `get_tools_description`, `validate_tools_consistency`, `validate_tool_arguments`, `execute_tool` |
| `tools.py` ↦ `charts.dfy` | `Charts` | `_process_*_data`, `_generate_chart_config`, the theme lookup, the `.html` file-name normalisation |
| `agent.py` ↦ `action_parser.dfy` | `ActionParser` | `_extract_action` |
| `agent.py` ↦ `agent.dfy` | `Agent` | `CodeAgent`: its constructor, `run` and `_get_response_with_action` |
| `frontend/app.js` ↦ `frontend.dfy` | `Frontend` | `buildFileTree`, `formatContentWithLineBreaks`, the extension test of `openFile`, `handleStreamResponse` |

How the source's state is modelled:

- **`CodeAgent`** is a class. Its fields are `memory`, `originalTask`,
  `taskCompleted` and `systemPrompt`. `Run` and `RunRound` update them in
  place.
  - Each is proved against the function `RunFrom`: the outcome, the final
    memory and the number of tool rounds of a run.
  - The lemmas about `RunFrom` state what a run promises.
  - The model, the JSON decoder and the tool implementations are parameters
    held in an `Environment`.
- **Loops in the source** are methods with loop invariants. Each is proved
  equal to a specification function, and the properties are lemmas about
  that function:
  - `_extract_action`'s brace scan: `ScanBraces` and `ExtractAction`.
  - The chunk loop of `_get_response_with_action`.
  - `to_prompt_format` and `get_tools_description`.
  - The validation loops.
  - The nested walks of `buildFileTree`.
  - The read loop of `handleStreamResponse`.
- **Exceptions** the source raises and catches are modelled as values. In
  Python these are `KeyError`, `TypeError` and `AttributeError`; in
  JavaScript, a `TypeError`. They appear as `None` results, `Raised`
  outcomes, or the `NO_TURN` that `_get_response_with_action` returns from
  its `except` branch.

Behaviour of the code worth noting:

- A failure of the model call does not end a run as a failure. The code
  catches it inside `_get_response_with_action` and returns `"", None, None`,
  so `run` returns `任务已完成` ("task completed"). See
  `Agent.FailedModelCallCompletesRun`.
- An exhausted budget yields its own message, `达到最大迭代次数…` ("maximum
  iterations reached"). It is not the `任务执行失败:` ("task failed") text.
- `run`'s own `except` branch is reachable in one way only: a `final_answer`
  whose `arguments` is not a dict, which fails at `.get`. See
  `Agent.FailureIsNonDictArguments`.
- The consistency check can never report a required parameter missing from
  `all_params`. See `Tools.RequiredAlwaysDeclared`.
- `task_completed` is never set to true.
- The page formats every message with `replace`, which throws on content
  that is not a string. A `final_answer` whose content is a number, a
  boolean, a list or an object therefore shows nothing, does not end the
  handler and does not enable the input again. A tool event with such
  content shows no step. See `Frontend.NonTextAnswerIsSkipped`.

## Model

| member | source | states |
|---|---|---|
| Strings.IndexOf | agent.py:192-199 | `str.find`: the first occurrence at or after `from`, or `None` exactly when there is none |
| Strings.SplitPartsHaveNoSeparator | frontend/app.js:118 | no part produced by the `split` on a set of separators contains a separator |
| Strings.JoinSplit | frontend/app.js:118-125 | joining the split parts with `c` is the text with every separator replaced by `c` |
| Strings.SplitAtSeparator | frontend/app.js:118 | a separator-free text followed by a separator is the first part, and the rest is split on |
| Strings.LastPartIsTextAfterLast | frontend/app.js:171 | `split(..).pop()` is separator-free, ends the text, and is preceded by a separator unless it is the whole text |
| Strings.LastPartIsSuffix | frontend/app.js:171 | the last part ends the text, just after a separator when it is shorter than the text |
| Strings.Lower | frontend/app.js:171 | `toLowerCase` maps each character, keeping the length (ASCII letters only) |
| Json.PyIn | tools.py:443 | Python `in`: key membership on a dict; raises exactly on `None`, booleans and numbers |
| Json.Update | tools.py:281-285 | `dict.update`: every key of the changes takes the new value, every other key keeps the old one |
| Json.LookupReplace | tools.py:281-322 | replacing a present key changes that key's value only |
| Tools.ToMap | tools.py:16 | the dict built from item pairs has exactly their keys |
| Tools.AllParamsSpec | tools.py:17 | `all_params` keys are the required and optional names; optional descriptions override the `必需参数: p` default |
| Tools.Registry | tools.py:103 | `TOOLS` holds exactly the declared names |
| Tools.RegistryHoldsEachDefinition | tools.py:103 | with distinct names, `TOOLS[name]` is that definition's `to_dict()` (the dict of lines 19-24) |
| Tools.ToPromptFormat | tools.py:26-41 | the block built by appending lines in loops is the title, the required section, the optional section, joined by newlines |
| Tools.AppendRequiredLines | tools.py:30-34 | the loop appends one line per required parameter, in order |
| Tools.AppendOptionalLines | tools.py:36-39 | the loop appends one line per optional parameter, in order |
| Tools.RequiredSectionIffRequiredParams | tools.py:30-31 | the `必需参数:` heading appears iff there are required parameters |
| Tools.OptionalSectionIffOptionalParams | tools.py:36-37 | the `可选参数:` heading appears iff there are optional parameters |
| Tools.HeadingsAreNotParamLines | tools.py:28-39 | no title or parameter line can be mistaken for a section heading |
| Tools.RequiredLineDescribes | tools.py:32-34 | a required line shows the optional description when there is one, else the default |
| Tools.GetToolsDescription | tools.py:378-390 | the text is the version header, the blocks in declaration order joined by blank lines, then the footer |
| Tools.DescriptionListsEveryTool | tools.py:383-390 | the capability text contains every tool's title line |
| Tools.NameSetSize | tools.py:414-416 | `len(set(names)) == len(names)` exactly when the names are distinct |
| Tools.ValidateToolsConsistency | tools.py:410-431 | the loop with early returns gives the verdict of the specification function |
| Tools.RequiredAlwaysDeclared | tools.py:424-426 | the required-parameter check never fails, because `all_params` includes every required name (line 17) |
| Tools.DefectFromIff | tools.py:419-421 | the scan passes iff every name and description is non-empty, and otherwise names a defective tool |
| Tools.ConsistencyIff | tools.py:410-431 | the check passes iff names are distinct and complete; otherwise the duplicate or incomplete message |
| Tools.DefinitionsAreConsistent | tools.py:410-428 | the six declared tools pass the check (the declarations of lines 44-100) |
| Tools.DefinitionsComplete | tools.py:44-100 | every declared tool has a non-empty name and a non-empty description |
| Tools.ConsistentWhenComplete | tools.py:410-428 | a list with distinct names and no empty name or description gets the consistent verdict |
| Tools.DefinitionNames | tools.py:44-100 | the six tools, in declaration order, with distinct names |
| Tools.ArgumentVerdict | tools.py:433-446 | validation passes only for a registered tool name |
| Tools.ValidateToolArguments | tools.py:433-446 | the lookup and the loop with early return give the specification verdict |
| Tools.CheckRequiredIff | tools.py:441-446 | passes iff every required name is present; otherwise reports the first missing one in declaration order |
| Tools.ExtraArgumentsIgnored | tools.py:441-446 | arguments that agree on the required names get the same verdict |
| Tools.ValidationFailureCallsNothing | tools.py:450-453 | a failed validation returns `参数验证失败: msg` whatever the implementations do |
| Tools.UnknownToolRejected | tools.py:451-453 | an unregistered name yields `参数验证失败: 未知工具: n` (the message of lines 435-436) |
| Tools.NeverRaisesOnDictArguments | tools.py:448-479 | with dict arguments and a hashable name, `execute_tool` always returns a text |
| Tools.RegistryOfDefinitions | tools.py:44-103 | `TOOLS` has exactly the six tool names |
| Tools.RegistryRequirements | tools.py:44-103 | the required parameters of `write_file`, `list_files` and `final_answer` |
| Tools.FinalAnswerDispatch | tools.py:464-465 | `final_answer` dispatch returns `任务完成: ` followed by the answer |
| Tools.ToolCall | tools.py:457-477 | the `if`/`elif` chain selects a call exactly for the six declared names, and `final_answer` never raises |
| Tools.ImplementationFailureIsReported | tools.py:478-479 | for every tool name, once validation has passed on dict arguments, an implementation that raises gives `工具执行错误 [name]: message` and one that returns gives its text |
| Tools.NonDictArgumentsReported | tools.py:457-479 | arguments that pass validation but are not a dict fail at `.get` and also give `工具执行错误 [name]: …` |
| Tools.WriteFileFailureIsReported | tools.py:452-479 | with `write_file`'s declared requirements, both arguments present and a raising implementation give the error text |
| Tools.DeclaredToolsDispatch | tools.py:464-465 | with the declared tools, `final_answer` with an answer dispatches to its text (the declarations of lines 44-103) |
| Charts.Column | tools.py:235 | the comprehension over `item[key]` succeeds iff every item has the key, and gives those values in order |
| Charts.ProcessBarLineData | tools.py:229-239 | labels and values always have equal length |
| Json.LookupDistinct | tools.py:231-232 | in a dict without repeated keys, each item's key looks up that item's value |
| Charts.DictColumnsAreItsEntries | tools.py:231-232 | a dict gives its keys, pairwise distinct and in order, as labels, and the value under each label as the matching value |
| Charts.ProcessPieData | tools.py:242-252 | one row per dict item or list element |
| Charts.ProcessScatterData | tools.py:255-265 | one point per list element |
| Charts.ProcessChartData | tools.py:217-226 | pie and scatter give rows, every other type gives columns; unknown types are processed as bar data |
| Charts.BarLineFailsOnlyOnBrokenRecords | tools.py:229-239 | reshaping raises exactly for a list whose first element is a name/value dict but a later one is not |
| Charts.PlainListIsNumbered | tools.py:236-237 | any other non-empty list is labelled `项目1..项目n` and used as the values |
| Charts.PieAgreesWithBarLine | tools.py:229-252 | pie rows carry the same values as the bar/line columns, with the same or `类别i` names |
| Charts.ScatterAgreesWithBarLine | tools.py:262-263 | a plain list plots as points `[i, value]` of the bar/line values (line 237) |
| Charts.ScatterChecksFirstElementOnly | tools.py:258-259 | only the first element's shape is checked: `[[1, 2], 3]` is passed through |
| Charts.ScatterBuiltPointsArePairs | tools.py:260-263 | every point the scatter reshaping builds is a pair |
| Charts.GenerateChartConfig | tools.py:268-324 | title text, tooltip trigger, one series with its type, data and name; legend iff pie; x and y axes iff not pie, each with its shape per type, including the `A`–`E` sample axis and bare value axis of an unknown type; for a pie the `{'top': '10%'}` legend and the series' `50%` radius and shadow emphasis; no key besides title, tooltip, legend, xAxis, yAxis and series |
| Charts.PieUpdate | tools.py:293-309 | the pie update sets the `{'top': '10%'}` legend and the `数据` pie series of the rows with its `50%` radius and shadow emphasis, and leaves every other key, axes included, as it was |
| Charts.AxesUpdate | tools.py:277-322 | the other branches set the x axis, the y axis and the series, each with its shape per type, and leave every other key as it was |
| Charts.NoOtherKeys | tools.py:269-324 | an update that leaves all keys but legend, xAxis, yAxis and series to the title-and-tooltip base adds no other key to the option |
| Charts.ThemeStyle | tools.py:330-339 | a theme named in the table gets its own style; any other hashable theme gets a style from the table (the light one); raises only for an unhashable theme |
| Charts.UnknownThemeFallsBackToLight | tools.py:339 | any other theme gets the light style |
| Charts.NormalizeOutputName | tools.py:179-180 | the name ends with `.html`, starts with the input, and is unchanged iff the input already ends with `.html` |
| Charts.NormalizeOutputNameIdempotent | tools.py:179-180 | normalising twice is normalising once |
| ActionParser.DepthCountsBraces | agent.py:205-209 | the depth is the count of `{` minus the count of `}`; no other character counts |
| ActionParser.CloseFrom | agent.py:205-212 | a found end lies after the start, within the text, just past a `}` |
| ActionParser.Span | agent.py:192-218 | the candidate slice is non-empty and lies within the response |
| ActionParser.ScanBraces | agent.py:202-215 | the loop ends with count zero iff the scan closes the object, and `json_end` is just past the closing brace |
| ActionParser.ExtractAction | agent.py:188-224 | the method returns what the specification returns: the decoded candidate or `None` |
| ActionParser.CloseFromSound | agent.py:205-212 | the found slice has depth 0 and every proper prefix depth ≥ 1; with no end, every prefix stays ≥ 1 |
| ActionParser.SpanIsFirstBalancedObject | agent.py:192-218 | the candidate starts at the first `{` after the first marker, ends at a `}`, balances, and has no balanced proper prefix |
| ActionParser.NoMarkerNoAction | agent.py:192-194 | without `Action:` there is no action, whatever JSON the text holds |
| ActionParser.NoBraceNoAction | agent.py:197-199 | without a `{` after the marker there is no action |
| ActionParser.ScanFailsIffNeverBalanced | agent.py:205-215 | the scan fails iff no prefix from the brace balances |
| ActionParser.UnbalancedIffNoSpan | agent.py:197-215 | once marker and brace are found, there is no candidate iff the braces never balance |
| ActionParser.ActionStableUnderExtension | agent.py:205-220 | text appended after a closed object does not change the action |
| ActionParser.BraceInStringLiteralClosesEarly | agent.py:205-212 | a `}` inside a quoted string closes the object early |
| Agent.AccumulateFrom | agent.py:122-136 | the chunk loop takes chunks up to the first one that makes the text contain `Observation:`, and stops exactly there |
| Agent.CollectedResponse | agent.py:122-136 | the collected response is the first `k` chunks, no shorter prefix holds the marker, and without a stop it is every chunk |
| Agent.StopOnlyOnMarker | agent.py:135-136 | the loop stops early only when the marker occurs |
| Agent.RunToEndTakesAll | agent.py:123-127 | without a stop every chunk is appended |
| Agent.ConcatSplit | agent.py:123-127 | the chunks' text splits at any chunk boundary |
| Agent.Turn | agent.py:107-186 | a true action has a `name`, and a tool result exists exactly when that name is not `final_answer` |
| Agent.ToolResultIsExecuteTool | agent.py:148-168 | the tool result is `execute_tool(name, arguments.get(...))` of the action parsed from the response |
| Agent.RaisingStreamGivesNoAction | agent.py:178-186 | a stream that raises before the marker gives `"", None, None` |
| Agent.TurnsOfValid | agent.py:107-186 | every round the environment produces keeps that invariant |
| Agent.AfterToolRoundShape | agent.py:75-83 | a tool round appends exactly three records after the old memory |
| Agent.RunFromToolStep | agent.py:75-83 | a round that calls a tool continues with the memory of that tool round |
| Agent.RunFromEnds | agent.py:50-90 | a round without a tool call ends the run: exhausted iff the budget is spent; an answer adds the response to memory |
| Agent.RunShapeStep | agent.py:75-83 | the shape of a run is kept when one tool round is prepended (the loop of line 37) |
| Agent.RunFromShape | agent.py:37-90 | rounds stay within the budget, memory grows by 3 per round (+1 on an answer), the old memory is kept, exhausted iff rounds = budget |
| Agent.ToolRoundsStep | agent.py:75-83 | tool rounds chain: one round followed by `n-1` more is `n` rounds |
| Agent.RunFromToolRounds | agent.py:75-83 | after the old memory, the final memory holds one three-record tool round per completed round (the loop of line 37) |
| Agent.RunFromRecorded | agent.py:75-83 | from round `i` on, the run keeps the memory it was given and appends one tool round per further completed round (the loop of line 37) |
| Agent.RunMemoryShape | agent.py:35-90 | memory is `[user task]`, three records per tool round, one more on an answer; every round is assistant, tool result, reminder |
| Agent.ExhaustedRunFillsMemory | agent.py:85-90 | an exhausted run did `max` rounds and left `1 + 3*max` records (the loop of line 37) |
| Agent.MemoryHoldsNoSystemRecord | agent.py:111 | no round adds a system record to memory |
| Agent.RunKeepsSystemPromptOut | agent.py:111 | the system prompt is only prepended to the outbound messages, never stored (line 35 seeds the memory with the task alone) |
| Agent.NoActionCompletesRun | agent.py:52-58 | in any round and with any memory, no action or a false one such as `{}` completes the run in that round, keeping the memory, with `任务已完成` |
| Agent.FailedModelCallCompletesRun | agent.py:178-186 | in any round, a model call that raises before `Observation:` completes the run in that round, keeping the memory (lines 52-58) |
| Agent.FailedFirstCallCompletesRun | agent.py:178-186 | a failing first model call completes the whole run with the task as the only record |
| Agent.FinalAnswerEndsRun | agent.py:64-72 | in any round, `final_answer` with dict arguments returns the answer (default `任务完成`), adds exactly the response to the memory, and runs no tool (the default of lines 167-168) |
| Agent.FailureIsNonDictArguments | agent.py:92-98 | a run fails only through `.get` on arguments that are not a dict (the `.get` of lines 61-65) |
| Agent.ToolCallsExhaustBudget | agent.py:75-90 | when every round calls a tool, the run exhausts its budget |
| Agent.CheckedToolsDescription | agent.py:14-16 | returns the declared tools, which pass the consistency check, and their rendered description (the description of lines 101-105) |
| Agent.CodeAgent.constructor | agent.py:12-27 | the agent starts with empty memory, no task, not completed, and the formatted system prompt |
| Agent.CodeAgent.GetResponseWithAction | agent.py:107-186 | the round's response, action and tool result are those of the round specification |
| Agent.CodeAgent.Run | agent.py:30-98 | the reply and the final memory are those of the run specification; `task_completed` stays false |
| Agent.CodeAgent.RunRound | agent.py:37-83 | one iteration of the loop: either the run ends with its reply and memory, or the run continues from the next round |
| Frontend.SplitPath | frontend/app.js:118 | at least one segment; joined by `/` they give the file with every `\` written as `/` (as used on line 125) |
| Frontend.BuildFileTree | frontend/app.js:114-135 | the nested loops build exactly the tree of the specification |
| Frontend.InsertFromKeys | frontend/app.js:121-131 | the walk adds exactly the prefixes of the segments |
| Frontend.InsertFromKeeps | frontend/app.js:122 | the walk never overwrites an existing node |
| Frontend.InsertFromAdds | frontend/app.js:122-129 | each new prefix gets a node with its segment, joined path and `isFile` flag |
| Frontend.InsertAddsPrefixes | frontend/app.js:117-131 | inserting a path adds every prefix of its segments and keeps the existing nodes |
| Frontend.InsertIdempotent | frontend/app.js:122-129 | inserting the same path twice is inserting it once |
| Frontend.ReachedSnoc | frontend/app.js:117 | the prefixes reached by the files so far, plus those of the new file |
| Frontend.BuildKeys | frontend/app.js:114-135 | the tree holds a node exactly for every prefix of a file's segments |
| Frontend.PathsArePrefixClosed | frontend/app.js:118-131 | every prefix of every file's segments has a node |
| Frontend.BuildNamesNodes | frontend/app.js:123-128 | every node's name is its last segment and its path is its segments joined by `/` |
| Frontend.InsertKeepsNames | frontend/app.js:123-128 | inserting one path keeps every node named by the key it is stored under |
| Frontend.InsertFromPresent | frontend/app.js:122 | a walk over prefixes that are all present changes nothing |
| Frontend.RepeatedFileChangesNothing | frontend/app.js:117-131 | listing a file again leaves the tree unchanged |
| Frontend.FirstWalkKept | frontend/app.js:117-131 | the file that first created a node stays the first as more files follow |
| Frontend.FirstWalkIsLast | frontend/app.js:117-131 | a node absent before the last file is created by the last file |
| Frontend.IsFileSetByFirstWalk | frontend/app.js:126 | a node is a file iff it was created at the last segment of the path that created it |
| Frontend.InsertFromAsWrittenAgrees | frontend/app.js:121-131 | without inherited names, the walk as written agrees with the intended one |
| Frontend.AsWrittenAgreesWithoutInheritedNames | frontend/app.js:114-135 | without inherited names, `buildFileTree` as written builds the intended tree |
| Frontend.InheritedFileNameIsDropped | frontend/app.js:122 | a file named like an `Object.prototype` member is silently missing |
| Frontend.InheritedFolderNameThrows | frontend/app.js:122-130 | a folder named like one makes the walk throw |
| Frontend.ConstructorFileIsDropped | frontend/app.js:122 | the file `constructor` is missing from the tree as written |
| Frontend.ToStringFolderThrows | frontend/app.js:122-130 | the file `toString/a.txt` makes `buildFileTree` throw |
| Frontend.BreakLines | frontend/app.js:431-434 | the result holds no newline |
| Frontend.BreakLinesAppend | frontend/app.js:433 | breaking lines distributes over concatenation |
| Frontend.ReplaceNewlines | frontend/app.js:433 | replacing every `\n` with `<br>` is `BreakLines` |
| Frontend.PairsKeepBreakLines | frontend/app.js:433 | replacing newline pairs first does not change the final text |
| Frontend.LineBreaksReplaceEveryNewline | frontend/app.js:431-434 | the formatted text is every `\n` written as `<br>`, with no newline left |
| Frontend.ExtensionIs | frontend/app.js:171 | the text after the last `.` is a dot-free `ext` iff the name is `ext` or ends with `.ext` |
| Frontend.AfterDotIsExtension | frontend/app.js:171 | the text after the last `.` is either the whole name or a suffix preceded by `.` |
| Frontend.ExtensionAfterDot | frontend/app.js:171 | a name ending in `.ext` with a dot-free `ext` has `ext` as the text after its last `.` |
| Frontend.IsHtmlFileIff | frontend/app.js:171-172 | a file is HTML iff its lower-cased name ends with `.html` or `.htm`, or is `html` or `htm` |
| Frontend.FoldAppend | frontend/app.js:328-335 | handling two runs of lines in turn is handling them together |
| Frontend.ReturnedPrefixIsFinal | frontend/app.js:339-414 | once the handler returns, the rest of the body changes nothing |
| Frontend.LinesAppend | frontend/app.js:332-335 | the lines of two runs of chunks are the lines of each |
| Frontend.ProcessLine | frontend/app.js:336-353 | one iteration of the line loop handles the line as the specification does |
| Frontend.DispatchEvent | frontend/app.js:356-415 | the branches on `parsed.type` act as the specification does, including the `TypeError` that non-text content raises in `addMessage` and `addToolMessage` (lines 432-434) |
| Frontend.HandleStreamResponse | frontend/app.js:321-428 | the read loop, the line loop and the outer catch give the handler of the specification |
| Frontend.DataLines | frontend/app.js:336 | the kept lines all start with `data: ` |
| Frontend.HandleEventAdds | frontend/app.js:356-415 | an event only appends actions, and re-enables the input iff it is `done` or a `final_answer` whose content is text or falsy |
| Frontend.HandleEventReturns | frontend/app.js:394-414 | an event makes the handler return iff it is `done` or a `final_answer` whose content is text or falsy |
| Frontend.NonTextAnswerIsSkipped | frontend/app.js:394-405 | a `final_answer` line with a number, boolean, list or object as content is not terminal, and the handler goes on as if the line had not come (`replace` throws at line 433) |
| Frontend.NonTextToolEventShowsNoStep | frontend/app.js:388-393 | a tool event with non-text content adds only the container step of `addToolMessage`, and no tool step (lines 477-525) |
| Frontend.HandleEventText | frontend/app.js:356-387 | the text grows by exactly the event's streamed content, and the message stays open once there is text |
| Frontend.HandleLineWithoutEvent | frontend/app.js:336-348 | a line without an event is skipped, unless it is `[DONE]`, which returns |
| Frontend.HandleLineWithEvent | frontend/app.js:350-353 | an event with an `error` adds an error message and returns; any other is dispatched |
| Frontend.HandleLineText | frontend/app.js:336-415 | a line returns iff it is terminal (`[DONE]`, an error, `done`, or a `final_answer` with text or falsy content); otherwise the text grows by its contribution |
| Frontend.HandleLineActions | frontend/app.js:336-415 | a line only appends actions, and re-enables the input iff its event is `done` or a `final_answer` with text or falsy content |
| Frontend.ReturnsIffTerminalLine | frontend/app.js:335-415 | the handler returns iff some line is `[DONE]`, an error, `done`, or a `final_answer` with text or falsy content |
| Frontend.ContentIsStreamedText | frontend/app.js:362-387 | the content is the thinking and response texts of the lines before the first terminal one, in order; a `final_answer` with non-text content is not terminal |
| Frontend.InputEnabledOnlyByConclusion | frontend/app.js:394-414 | the input is re-enabled iff the first terminal line is `done` or a `final_answer` with text or falsy content |
| Frontend.OnlyDataLinesMatter | frontend/app.js:336 | lines without the `data: ` prefix change nothing |
| Frontend.StreamOutcome | frontend/app.js:321-428 | over a whole body: the streamed text, return iff a terminal line, input re-enabled iff that line is `done` or a `final_answer` with text or falsy content |

## Left out

- The OpenAI streaming call is an oracle. `Environment.model` yields each round's chunks and whether the stream raises after them. Network I/O is not modelled.
- `response_queue` events and `print` output are not modelled. They publish progress to another thread and change no state the loop reads.
- `json.loads` and `JSON.parse` are arbitrary partial functions (`decode`, `parse`). Full JSON decoding is a library.
- The file tools, `execute_code` and the chart tool's file write are arbitrary functions in `Implementations` that return a text or raise. They are file-system I/O and dynamic `exec`.
- `create_echarts_visualization` as a whole is not composed. Its `.html` normalisation, data reshaping, option building and theme lookup are modelled separately.
- The HTML text of `_generate_html_template` and the `json.dumps` formatting are not modelled; only the theme lookup is. They are cosmetic template text.
- `get_tools_description_fallback` is not modelled. It runs only if rendering raises, which it cannot for the declared tools.
- `prompt.py` and `config.py` are not part of this model. `SYSTEM_PROMPT.format` is the `formatPrompt` parameter of the constructor, and `MAX_ITERATIONS` is the `maxIterations` parameter of `Run`.
- `app.py` is not part of this model (web routes, a worker thread, a queue with a heartbeat timeout).
- The page itself is recorded as a list of `PageAction`s: the DOM, `fetch`, the modal, scrolling, the typing cursor, `renderFileTree` and `sendMessage`. Only the page's effects are kept.
- Json.Value: an object is a sequence of fields, which can repeat a key; a decoded Python dict cannot. `Lookup` lets the last binding win, as a dict literal does, but the reshaping functions, `PyRepr` and `PyStr` match Python only on objects whose fields satisfy `Json.DistinctKeys`; `Charts.DictColumnsAreItsEntries` states the bar and line reshaping for such dicts.
- `Json.Value` numbers are integers only. Floating-point values in chart data or arguments are not modelled.
- `Json.PyRepr` does not escape quotes or control characters inside texts.
- `Strings.Lower`: `toLowerCase` is modelled on ASCII letters only, because Unicode case mapping is not modelled.
- `Strings.Capitalize`: `str.capitalize` is modelled on ASCII letters only, for the same reason.
- `Frontend.BuildFileTree`: the nested `children` objects are a flat map keyed by each node's segment path. The order in which `Object.values` lists children is not modelled.
- `Frontend.HandleStreamResponse`: each chunk is split into lines by itself, as the code does. A `data:` line cut across two chunks is therefore handled as two lines.
- `Agent.CodeAgent.Run`: the three `memory.append` calls of a tool round are one concatenation of the same three records. Nothing observes memory between them.
- `Agent.CodeAgent.Run`: `run`'s branch for a tool call without a result (`tool_result is None`) is proved unreachable by `Agent.Turn`, so it is not modelled. `execute_tool` returns a text unless it raises, and a raise makes the round return no action.
- `Agent.Turn`: an action without a `name` key is modelled as the `KeyError` that `_get_response_with_action` catches. That makes `run` see no action.

## Findings

| source | as written | input that shows it | evidently intended | confidence | as-written member | corrected member |
|---|---|---|---|---|---|---|
| frontend/app.js:122 | `!current[part]` tests a property of a plain `{}`, which inherits the members of `Object.prototype`; a segment named `constructor`, `toString`, `valueOf`, ... is taken as present, so no node is made and `current` becomes that inherited value's `children`, i.e. `undefined` | the listing `["constructor"]` shows no file; the listing `["toString/a.txt"]` throws a `TypeError` at the next segment | every listed file appears in the tree, whatever its segments are called (an own-property test, or a prototype-free object) | not executed | Frontend.ConstructorFileIsDropped, Frontend.ToStringFolderThrows | Frontend.BuildFileTree |
