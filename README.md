# Traffic analysis and Codex call helpers, modelled in Dafny

This project models the data-handling core of the `agent-system-dissect` probe toolkit:

- **SSE decoding** (`sse.py`): a captured Server-Sent-Events body becomes a list of
  `{event, data}` records.
- **OpenAI Responses rendering** (`openai_responses.py`): request and response bodies become
  Markdown. This covers the summary line, the system instructions, the input-message table,
  the long-message details, the tools, the SSE event census, the assembled output and
  reasoning text, the tool calls and the token usage.
- **Traffic analysis** (`analyze.py`):
  - loading a JSONL capture;
  - the dotted key-path census of bodies;
  - the statistics over all entries: endpoint, method and status counters, key counts and
    type sets, byte totals and duration;
  - header redaction;
  - the full conversation log.
- **Codex call helpers** (`run.py`, the pure helpers of the Codex tutorial script):
  - order-preserving de-duplication;
  - secret sanitisation of JSON values;
  - exact-match comparison;
  - JSONL parsing with per-line errors;
  - the thread-id and final-message scans over `codex exec` and app-server event streams;
  - the exec result record;
  - host-binary selection.

JSON values are the `Json.Value` datatype. Objects are sequences of fields in insertion order,
as Python dicts are.

Python's `collections.Counter` is the `Counter` module:
- an insertion-ordered list of `(key, count)` pairs;
- `most_common` is a stable descending insertion sort.

Library calls the toolkit does not implement are parameters:
- `json.loads`, `json.dumps`, `json.dumps(indent=2)`;
- `str()` of floats, lists and dicts;
- `format(x, ",")` of a float;
- `urlparse(...).path`;
- the UTC clock rendering;
- `mask_string_value`;
- `Path.resolve`.

Most of these are bundled in `Json.Foreign`. A profile's body renderers are the function
fields of `Traffic.AnalysisProfile`.

Code that loops in the source is a method with loop invariants. Each such method is proved
equal to a specification function, and the lemmas state what the source promises about that
function. A dict access in the source that would raise (`.get` on a non-dict) is excluded by a
`requires` shape predicate.

The module summary of `analyze.py` (line 15) describes `redact_headers` as replacing sensitive
values with `[REDACTED]`. The function's own docstring (lines 261-263) and its code keep a
20-character prefix of long values, followed by `...[REDACTED]`. The model follows the code.

## Model

| member | source | states |
|---|---|---|
| Sse.ParseSseEvents | src/agent_system_dissect/probe/tools/traffic/sse.py:38-61 | the loop over blank-line-separated blocks returns exactly the block-by-block decoding `Decode(raw)` |
| Sse.DecodeBlocksAppend | src/agent_system_dissect/probe/tools/traffic/sse.py:39-61 | decoding is compositional: the events of two runs of blocks are the events of each, concatenated in order |
| Sse.DecodeAtMostOnePerBlock | src/agent_system_dissect/probe/tools/traffic/sse.py:39-61 | a body never yields more events than it has `"\n\n"`-separated blocks |
| Sse.DecodeBlank | src/agent_system_dissect/probe/tools/traffic/sse.py:40-42 | an all-whitespace body yields no events |
| Sse.DecodeSingleBlock | src/agent_system_dissect/probe/tools/traffic/sse.py:39-61 | a body without a blank-line separator yields exactly the decoding of that one block, or nothing |
| Sse.DecodeBlockIff | src/agent_system_dissect/probe/tools/traffic/sse.py:40-60 | a block yields a record iff it is not blank and has a non-empty event type (the tail of the last `event: ` line) or a data line; the record is the last event type and the data lines joined by newlines |
| Sse.EventTypeIsLast | src/agent_system_dissect/probe/tools/traffic/sse.py:45-47 | the event type is the tail of the last `event: ` line, or empty when there is none |
| Sse.DataLinesAppend | src/agent_system_dissect/probe/tools/traffic/sse.py:45-51 | data lines are collected in line order, across any split of the lines |
| Sse.DataLinesEmpty | src/agent_system_dissect/probe/tools/traffic/sse.py:45-51 | no data is collected iff no line starts with `data:` |
| Sse.PayloadCases | src/agent_system_dissect/probe/tools/traffic/sse.py:53-59 | data is absent iff the joined string is empty, parsed iff it is non-empty and parses, and otherwise the raw string itself |
| Sse.SingleDataRecord | src/agent_system_dissect/probe/tools/traffic/sse.py:38-61 | a lone `data: p` line yields one record with an empty event type and the payload of `p` |
| Responses.CollectTexts | src/agent_system_dissect/probe/renderers/openai_responses.py:303-306 | the texts of the dict items of a content list, in order, `""` where an item has none |
| Responses.MessageContentPreview | src/agent_system_dissect/probe/renderers/openai_responses.py:295-312 | the preview loop computes the specification `PreviewOf` |
| Responses.PreviewShape | src/agent_system_dissect/probe/renderers/openai_responses.py:295-312 | a preview is never empty and never contains a newline; it is a placeholder or at most `max_len + 3` characters long |
| Responses.PreviewOfPlainString | src/agent_system_dissect/probe/renderers/openai_responses.py:300-312 | a short single-line string without surrounding spaces is its own preview |
| Responses.MessageContentFull | src/agent_system_dissect/probe/renderers/openai_responses.py:315-327 | the full-text loop computes the specification `FullTextOf` |
| Responses.PreviewIsFlattenedFull | src/agent_system_dissect/probe/renderers/openai_responses.py:295-327 | for content that is not null, the preview text and the full text agree once newlines become spaces: the space and newline joins of list items differ only there |
| Responses.FullTextOfString | src/agent_system_dissect/probe/renderers/openai_responses.py:317-320 | a string content is its own full text; absent content is empty |
| Responses.FormatRequestBody | src/agent_system_dissect/probe/renderers/openai_responses.py:48-134 | the request renderer returns `RequestMarkdown(body)`. This covers the no-body, string and non-dict cases and the dict layout, including string or list instructions |
| Responses.CollectSummaryParts | src/agent_system_dissect/probe/renderers/openai_responses.py:65-74 | the summary parts are the model, the present config keys in order, and the reasoning summary |
| Responses.ConfigPartsOrder | src/agent_system_dissect/probe/renderers/openai_responses.py:67-69 | exactly the config keys present in the body appear, in the fixed order stream, tool_choice, parallel_tool_calls, store |
| Responses.SummaryFirst | src/agent_system_dissect/probe/renderers/openai_responses.py:65-75 | the first line is the summary parts joined by a vertical-bar separator, and it starts with the model part |
| Responses.ModelUnknown | src/agent_system_dissect/probe/renderers/openai_responses.py:65-66 | a body without a model is summarised as model `unknown` |
| Responses.SummaryOnly | src/agent_system_dissect/probe/renderers/openai_responses.py:64-134 | with no instructions, input or tools, the request renders as the summary line alone |
| Responses.ItemsPreviewProps | src/agent_system_dissect/probe/renderers/openai_responses.py:82-84 | slicing a list of instructions or arguments keeps the first `n` items and appends three `"."` items when it is longer; a short list is kept whole |
| Responses.InstructionsPreviewProps | src/agent_system_dissect/probe/renderers/openai_responses.py:79-84 | instructions up to 500 characters are shown whole; longer ones are cut to 500 plus `...` (503 characters) |
| Responses.RenderMessageRows | src/agent_system_dissect/probe/renderers/openai_responses.py:98-103 | the table loop yields the specification rows |
| Responses.MessageRowsProps | src/agent_system_dissect/probe/renderers/openai_responses.py:98-103 | there is one row per input message, and row `i` renders message `i` |
| Responses.MessageRowsLength | src/agent_system_dissect/probe/renderers/openai_responses.py:98-103 | the table for the first `n` messages has exactly `n` rows |
| Responses.MessageRowAt | src/agent_system_dissect/probe/renderers/openai_responses.py:98-103 | row `i` of the table is the row rendered for message `i` |
| Responses.MessageRowNumbered | src/agent_system_dissect/probe/renderers/openai_responses.py:103 | row `i` starts with a table cell holding the index `i` |
| Responses.RenderFullContents | src/agent_system_dissect/probe/renderers/openai_responses.py:107-117 | the details loop yields the specification lines |
| Responses.LongMessagesShown | src/agent_system_dissect/probe/renderers/openai_responses.py:107-117 | every message whose full text is longer than 120 characters gets its details block |
| Responses.OnlyLongMessagesShown | src/agent_system_dissect/probe/renderers/openai_responses.py:107-117 | every details line belongs to such a long message, or is a blank separator |
| Responses.RenderToolItems | src/agent_system_dissect/probe/renderers/openai_responses.py:122-126 | the tools loop yields one item per tool, in order |
| Responses.FormatResponseBody | src/agent_system_dissect/probe/renderers/openai_responses.py:165-287 | the response renderer returns `ResponseMarkdown(body)`. This covers the no-body, dict, non-string, plain-string and SSE-stream cases, string or list tool-call arguments, and integer, boolean or float token counts |
| Responses.StreamRenderingIff | src/agent_system_dissect/probe/renderers/openai_responses.py:183-194 | a string body is rendered as an SSE stream iff, with leading whitespace removed, it starts with `event:` |
| Responses.StreamLinesHead | src/agent_system_dissect/probe/renderers/openai_responses.py:194 | a stream rendering starts with the `**SSE Stream**` title line |
| Responses.RenderCountRows | src/agent_system_dissect/probe/renderers/openai_responses.py:200-201 | one table row per counter entry, in counter order |
| Responses.EventCountsProps | src/agent_system_dissect/probe/renderers/openai_responses.py:191-201 | the event census counts sum to the number of events, are non-increasing, and each is the true number of occurrences of an event type |
| Responses.ScanEvents | src/agent_system_dissect/probe/renderers/openai_responses.py:205-229 | the event loop yields the output and reasoning delta parts, the tool calls and the last usage, each equal to its specification |
| Responses.DeltaPartsAppend | src/agent_system_dissect/probe/renderers/openai_responses.py:211-220 | delta parts are collected in event order across any split of the stream |
| Responses.DeltaTextAppend | src/agent_system_dissect/probe/renderers/openai_responses.py:232-243 | the assembled text of a stream is the assembled text of its halves, concatenated |
| Responses.InterleavedDeltas | src/agent_system_dissect/probe/renderers/openai_responses.py:211-243 | two output deltas with a reasoning delta between them assemble into the two output texts concatenated, and the reasoning text on its own |
| Responses.ToolCallsAppend | src/agent_system_dissect/probe/renderers/openai_responses.py:221-226 | tool calls are collected in event order across any split of the stream |
| Responses.ToolCallsSingle | src/agent_system_dissect/probe/renderers/openai_responses.py:221-226 | only an `arguments.done` event with dict data yields a tool call |
| Responses.LastUsageIsLast | src/agent_system_dissect/probe/renderers/openai_responses.py:227-229 | the usage reported is that of the last `response.completed` event |
| Responses.NoCompletionNoUsage | src/agent_system_dissect/probe/renderers/openai_responses.py:208-229 | without a completion event there is no usage |
| Responses.RenderToolCalls | src/agent_system_dissect/probe/renderers/openai_responses.py:255-261 | the tool-call loop yields the specification lines |
| Responses.ArgumentsPreviewProps | src/agent_system_dissect/probe/renderers/openai_responses.py:257-260 | an arguments preview keeps the first 300 characters, is at most 303 long, and is the whole argument string when that is short |
| Analyze.LoadEntries | src/agent_system_dissect/probe/tools/traffic/analyze.py:66-76 | the file loop returns the entries and warnings of the specification `LoadFrom` |
| Analyze.LoadAccountsForEveryLine | src/agent_system_dissect/probe/tools/traffic/analyze.py:66-76 | each non-blank line becomes exactly one entry or one warning |
| Analyze.WarningsNameBadLines | src/agent_system_dissect/probe/tools/traffic/analyze.py:72-75 | every warning names the 1-based number and error of a non-blank line that failed to parse |
| Analyze.LoadEntriesAppend | src/agent_system_dissect/probe/tools/traffic/analyze.py:66-76 | entries keep file order across any split of the file |
| Analyze.TypeName | src/agent_system_dissect/probe/tools/traffic/analyze.py:99-113 | the label is one of the seven JSON type names |
| Analyze.TypeNameIff | src/agent_system_dissect/probe/tools/traffic/analyze.py:99-113 | two values get the same label iff they have the same JSON kind; `bool` is not `int` |
| Analyze.ExtractKeysNonDict | src/agent_system_dissect/probe/tools/traffic/analyze.py:138-140 | a scalar or empty list has no keys; a non-empty list contributes the keys of its first element under `prefix[]` |
| Analyze.ExtractKeysHasField | src/agent_system_dissect/probe/tools/traffic/analyze.py:133-137 | every field of a dict appears with its dotted path and type label |
| Analyze.KeyPathExtends | src/agent_system_dissect/probe/tools/traffic/analyze.py:135 | a nested path extends its prefix |
| Analyze.ExtractKeysUnderPrefix | src/agent_system_dissect/probe/tools/traffic/analyze.py:132-140 | every path found under a non-empty prefix starts with that prefix |
| Analyze.MethodOf | src/agent_system_dissect/probe/tools/traffic/analyze.py:184 | a request without a method counts as `?` |
| Analyze.EndpointOf | src/agent_system_dissect/probe/tools/traffic/analyze.py:188-189 | the endpoint is the URL path whenever that is non-empty, and is never empty (`/` otherwise) |
| Analyze.Duration | src/agent_system_dissect/probe/tools/traffic/analyze.py:224 | the duration is non-negative and bounds the difference of any two collected timestamps. It is 0 with fewer than two; otherwise it is the difference of two of them (the largest minus the smallest) |
| Analyze.TruthyTimestamps | src/agent_system_dissect/probe/tools/traffic/analyze.py:185-186 | the collected timestamps are the truthy timestamps of the entries, in order |
| Analyze.AccumulateTimestamps | src/agent_system_dissect/probe/tools/traffic/analyze.py:185-224 | the statistics loop collects exactly `TruthyTimestamps(entries)`, and the duration is computed from them |
| Analyze.TruthyTimestampsIff | src/agent_system_dissect/probe/tools/traffic/analyze.py:185-186 | a value is collected iff some entry has a truthy timestamp with that value |
| Analyze.TruthyTimestampSource | src/agent_system_dissect/probe/tools/traffic/analyze.py:185-186 | every collected timestamp is the truthy timestamp of some entry, whose index it returns |
| Analyze.TruthyTimestampCollected | src/agent_system_dissect/probe/tools/traffic/analyze.py:185-186 | every entry's truthy timestamp is collected |
| Analyze.CountKeys | src/agent_system_dissect/probe/tools/traffic/analyze.py:199-202 | the per-body key loop adds each path to the counter and its type to the path's type set |
| Analyze.CensusBody | src/agent_system_dissect/probe/tools/traffic/analyze.py:197-222 | a body adds its key census when it is a dict, and its UTF-8, text or JSON size unless it is null |
| Analyze.CountEntry | src/agent_system_dissect/probe/tools/traffic/analyze.py:180-222 | one pass of the loop body turns the running counters, sets, timestamps and byte totals into the specification `Step` of them for that entry |
| Analyze.AnalyzeEntries | src/agent_system_dissect/probe/tools/traffic/analyze.py:168-239 | the statistics loop returns the specification `Statistics(entries)` |
| Analyze.EndpointMethodPairsAt | src/agent_system_dissect/probe/tools/traffic/analyze.py:188-192 | the i-th endpoint and method pair is that of the i-th entry |
| Analyze.AddAllIff | src/agent_system_dissect/probe/tools/traffic/analyze.py:202 | after adding pairs to a `defaultdict(set)`, a value is in a key's set iff it was before or the pair was added |
| Analyze.AccumulateEndpoints | src/agent_system_dissect/probe/tools/traffic/analyze.py:190-192 | the endpoint counter tallies the entries' endpoints, and the endpoint-method sets collect their pairs |
| Analyze.AccumulateMethods | src/agent_system_dissect/probe/tools/traffic/analyze.py:191 | the method counter tallies the entries' methods |
| Analyze.AccumulateStatuses | src/agent_system_dissect/probe/tools/traffic/analyze.py:193-194 | the status counter tallies the `str` of every status that is not null |
| Analyze.AccumulateCensus | src/agent_system_dissect/probe/tools/traffic/analyze.py:197-219 | the key counters and type sets are those of the request and response dict bodies' paths |
| Analyze.StatusCountIsStatuses | src/agent_system_dissect/probe/tools/traffic/analyze.py:193-194 | one status is counted per entry with a non-null status code |
| Analyze.EndpointAndMethodTotals | src/agent_system_dissect/probe/tools/traffic/analyze.py:226-230 | the endpoint and method counts each sum to the number of entries, are sorted non-increasing, and are true occurrence counts |
| Analyze.StatusTotals | src/agent_system_dissect/probe/tools/traffic/analyze.py:231 | the status counts sum to the number of entries with a status, are sorted, and are true occurrence counts |
| Analyze.KeyCountsTop30 | src/agent_system_dissect/probe/tools/traffic/analyze.py:233-234 | exactly min(30, distinct paths) key counts are kept, sorted non-increasing, each a true occurrence count. Every path is kept when there are at most 30, and every path left out occurs no more often than any kept one |
| Analyze.KeyTypesIff | src/agent_system_dissect/probe/tools/traffic/analyze.py:235-236 | a type label is recorded for a path iff some body has that path with that type |
| Analyze.EndpointMethodsIff | src/agent_system_dissect/probe/tools/traffic/analyze.py:232 | a method is listed for an endpoint iff some entry used that method on that endpoint |
| Analyze.RedactHeaders | src/agent_system_dissect/probe/tools/traffic/analyze.py:265-271 | the redaction loop returns the specification `Redacted(headers)` |
| Analyze.RedactedFields | src/agent_system_dissect/probe/tools/traffic/analyze.py:265-271 | redaction keeps every header name and order and every unredacted value; a redacted value (case-insensitive name match) becomes its marker form |
| Analyze.RedactValueIdempotent | src/agent_system_dissect/probe/tools/traffic/analyze.py:268 | the marker form is at most 33 characters and is its own marker form |
| Analyze.RedactIdempotent | src/agent_system_dissect/probe/tools/traffic/analyze.py:265-271 | redacting already-redacted headers changes nothing |
| Analyze.RedactBearerToken | src/agent_system_dissect/probe/targets/codex/traffic.py:48 | with the Codex redaction set, an `Authorization` bearer token keeps its first 20 characters followed by the redaction marker |
| Analyze.KeepContentType | src/agent_system_dissect/probe/targets/codex/traffic.py:48 | with the Codex redaction set, a `Content-Type` header is left untouched |
| Analyze.RenderHeaders | src/agent_system_dissect/probe/tools/traffic/analyze.py:327-328 | the header loop yields one `name: value` line per header, in order |
| Analyze.RenderRedacted | src/agent_system_dissect/probe/tools/traffic/analyze.py:327-328 | rendering the redacted headers gives, line by line, the redacted rendering of each header |
| Analyze.RenderExchange | src/agent_system_dissect/probe/tools/traffic/analyze.py:303-355 | one exchange's section is the specification `ExchangeLines`: heading, time, redacted headers, rendered bodies, rule |
| Analyze.AppendExchange | src/agent_system_dissect/probe/tools/traffic/analyze.py:302-355 | one turn of the log loop appends exactly the next exchange's section |
| Analyze.Exchanges | src/agent_system_dissect/probe/tools/traffic/analyze.py:302 | there is one section per entry |
| Analyze.FormatConversations | src/agent_system_dissect/probe/tools/traffic/analyze.py:298-358 | the log loop returns the specification `ConversationLog(entries)` |
| Analyze.SectionsInOrder | src/agent_system_dissect/probe/tools/traffic/analyze.py:302-318 | the sections appear in entry order, and section `i` opens with the heading numbered `i + 1` |
| Analyze.HeadingNumbered | src/agent_system_dissect/probe/tools/traffic/analyze.py:318 | heading `n` starts with `### Request n:` followed by the opening backtick of the request line |
| Analyze.ConversationLogHeadings | src/agent_system_dissect/probe/tools/traffic/analyze.py:299-300 | the log starts with the `## Full Conversation Log` title line |
| Counter.IncCounts | src/agent_system_dissect/probe/tools/traffic/analyze.py:190 | `counter[k] += 1` adds one to the count of `k` and to the total, and leaves every other count alone |
| Counter.IncKeys | src/agent_system_dissect/probe/tools/traffic/analyze.py:190 | `counter[k] += 1` keeps the keys distinct and adds exactly `k` to them |
| Counter.TallyProps | src/agent_system_dissect/probe/renderers/openai_responses.py:191 | a counter built from a sequence holds every element's occurrence count, with distinct keys and the sequence length as total |
| Counter.SortDescProps | src/agent_system_dissect/probe/tools/traffic/analyze.py:229-231 | `most_common()` is a non-increasing permutation of the counter |
| Counter.MostCommonProps | src/agent_system_dissect/probe/tools/traffic/analyze.py:233 | `most_common(n)` is the first min(n, size) entries of `most_common()`, sorted non-increasing; without a limit, or with one no smaller than the counter, it keeps every entry; no dropped entry has a larger count than a kept one |
| Counter.MostCommonDominates | src/agent_system_dissect/probe/tools/traffic/analyze.py:233 | an entry `most_common(n)` drops has a count no larger than any entry it keeps |
| Counter.KeptWhole | src/agent_system_dissect/probe/tools/traffic/analyze.py:229-233 | without a limit, or with one at least the counter's size, every entry is kept |
| Counter.MostCommonTally | src/agent_system_dissect/probe/tools/traffic/analyze.py:228-234 | a sorted tally's entries are true occurrence counts; without a limit they sum to the input length. It has min(n, distinct) entries; when nothing is cut every element is kept, and an element left out occurs no more often than any kept entry |
| Counter.TallyKeptWhole | src/agent_system_dissect/probe/tools/traffic/analyze.py:229-233 | an uncut sorted tally lists every element of the input |
| Counter.TallyDominates | src/agent_system_dissect/probe/tools/traffic/analyze.py:233 | an element the limit cuts from a sorted tally occurs no more often than any kept entry |
| CodexCalls.UniqueKeepOrder | docs/tutorials/misc/codex-python-calls/scripts/run.py:80-87 | the `seen`-set loop returns the specification `Dedup(values)` |
| CodexCalls.DedupProps | docs/tutorials/misc/codex-python-calls/scripts/run.py:80-87 | the result has no duplicates, holds exactly the input's values, and is no longer than the input |
| CodexCalls.DedupKeepsOrder | docs/tutorials/misc/codex-python-calls/scripts/run.py:80-87 | the values appear in the order of their first occurrence in the input |
| CodexCalls.DedupDistinct | docs/tutorials/misc/codex-python-calls/scripts/run.py:80-87 | a list without duplicates is returned unchanged |
| CodexCalls.DedupIdempotent | docs/tutorials/misc/codex-python-calls/scripts/run.py:80-87 | de-duplicating twice is de-duplicating once |
| CodexCalls.Sanitize | docs/tutorials/misc/codex-python-calls/scripts/run.py:51-67 | sanitising keeps each value's kind, dict keys and list length, and leaves scalars alone; a string becomes the marker under a secret hint and its mask otherwise |
| CodexCalls.SanitizeFields | docs/tutorials/misc/codex-python-calls/scripts/run.py:54-59 | field `i` of a sanitised dict keeps its key; its value is the marker for a string under a hinted key, and otherwise is sanitised with the lower-cased key as hint |
| CodexCalls.SanitizeItems | docs/tutorials/misc/codex-python-calls/scripts/run.py:61-62 | item `i` of a sanitised list is item `i` sanitised under the inherited hint |
| CodexCalls.SecretFieldRedacted | docs/tutorials/misc/codex-python-calls/scripts/run.py:55-57 | a string field whose key contains a secret hint becomes `<REDACTED>` |
| CodexCalls.HintedListRedacted | docs/tutorials/misc/codex-python-calls/scripts/run.py:61-65 | every string in a list under a secret key becomes `<REDACTED>` |
| CodexCalls.SanitizeIdempotent | docs/tutorials/misc/codex-python-calls/scripts/run.py:51-67 | with an idempotent mask, sanitising twice is sanitising once |
| CodexCalls.NormalizeText | docs/tutorials/misc/codex-python-calls/scripts/run.py:70-73 | only a string normalises, to its stripped form |
| CodexCalls.ExactMatchIff | docs/tutorials/misc/codex-python-calls/scripts/run.py:76-77 | a match holds iff the actual value is a string whose stripped form equals the expected one; `None` never matches |
| CodexCalls.ExactMatchPadded | docs/tutorials/misc/codex-python-calls/scripts/run.py:70-77 | surrounding whitespace does not prevent a match |
| CodexCalls.ParseJsonl | docs/tutorials/misc/codex-python-calls/scripts/run.py:179-207 | the line loop returns the events and errors of the specification `JsonlFrom(lines)` |
| CodexCalls.JsonlAccountsForEveryLine | docs/tutorials/misc/codex-python-calls/scripts/run.py:182-206 | each non-blank line becomes exactly one event or one error |
| CodexCalls.JsonlContents | docs/tutorials/misc/codex-python-calls/scripts/run.py:182-206 | events are dicts that some line parsed to; each error describes a bad line with a preview of at most 200 characters; error line numbers increase |
| CodexCalls.NonObjectLine | docs/tutorials/misc/codex-python-calls/scripts/run.py:197-206 | a line holding a non-object gives the `json root is T, expected object` error |
| CodexCalls.JsonlBlank | docs/tutorials/misc/codex-python-calls/scripts/run.py:183-185 | blank lines give neither events nor errors |
| CodexCalls.JsonlEventsAreObjects | docs/tutorials/misc/codex-python-calls/scripts/run.py:197-198 | every parsed event is a dict, as the scans require |
| CodexCalls.ThreadIdOf | docs/tutorials/misc/codex-python-calls/scripts/run.py:212-215 | a thread id is only ever a non-empty string |
| CodexCalls.FindExecThreadId | docs/tutorials/misc/codex-python-calls/scripts/run.py:210-216 | the result is the id of the first `thread.started` event that carries one, or none iff no event does |
| CodexCalls.ThreadIdNoFallback | docs/tutorials/misc/codex-python-calls/scripts/run.py:213-214 | a truthy non-string `thread_id` hides `threadId`, and the event yields no id |
| CodexCalls.FindExecFinalMessage | docs/tutorials/misc/codex-python-calls/scripts/run.py:219-230 | the result is the text of the last completed agent-message item, or none iff there is no such item |
| CodexCalls.ParseAppServerAgentText | docs/tutorials/misc/codex-python-calls/scripts/run.py:385-399 | the result is the text of the last `item/completed` agent message, or none iff there is none |
| CodexCalls.SameItemRule | docs/tutorials/misc/codex-python-calls/scripts/run.py:223-229 | the exec scan and the app-server scan judge the same item identically |
| CodexCalls.ExecStatus | docs/tutorials/misc/codex-python-calls/scripts/run.py:246 | the status is `ok` iff the return code is 0 and the run did not time out, and `failed` otherwise |
| CodexCalls.ExecParseCounts | docs/tutorials/misc/codex-python-calls/scripts/run.py:240-258 | the event and error counts are those of parsing stdout, they account for every non-blank line, and the errors kept are the first five |
| CodexCalls.ExecStderrTail | docs/tutorials/misc/codex-python-calls/scripts/run.py:259 | the stderr tail is a suffix of stderr of at most 2000 characters, and all of a short stderr |
| CodexCalls.ExecExactMatch | docs/tutorials/misc/codex-python-calls/scripts/run.py:241-243 | the result matches iff a final message exists and its stripped form is the expected reply |
| CodexCalls.FirstOutside | docs/tutorials/misc/codex-python-calls/scripts/run.py:104-110 | finds the first candidate whose resolved path is outside the workspace, or reports that there is none |
| CodexCalls.PickHostCodex | docs/tutorials/misc/codex-python-calls/scripts/run.py:102-113 | returns none iff there are no candidates; otherwise the first candidate outside the workspace, or the first candidate when every one is inside |

## Left out

- `runner.py` and `capture_addon.py` are left out: they start processes, install signal handlers, and handle proxy flows and file I/O.
- `format_report`, `load_analysis_profile` and `main` of `analyze.py` are left out. They do Markdown table layout over the statistics, a dynamic module import, and command-line handling.
- The process, file and clock functions of `run.py` are left out because they are I/O:
  - `run_command`;
  - the `test_*` drivers;
  - `find_codex_candidates`, `read_version`, `exec_supports_flag`;
  - `write_json`, `utc_now`, `load_cases`;
  - `build_conversation_inspection`, `main`.
- `mask_string_value` is a parameter because it uses regex substitution and filesystem paths. `SanitizeIdempotent` assumes the mask is idempotent.
- `json.loads` and `json.dumps` are parameters, and so are `str()` of floats and containers, `urlparse`, the thousands-separator formatting of non-integers, and `datetime` formatting. Only their results' use is modelled.
- `Path.resolve` is a parameter of `PickHostCodex`. `None` from it stands for `OSError`. `os.sep` is `/`.
- `load_entries` reads a file. The model takes the file's lines, and returns the warnings that the source prints to stderr.
- Floating point is not modelled: timestamps are reals, `round(duration, 1)` is left out, and NaN and infinities are not modelled.
- `str.splitlines` and `str.lower` are modelled partially. `splitlines` splits on `"\n"` only; other line breaks stay inside a line and are stripped only when they are whitespace. `lower` covers ASCII only.
- Boolean timestamps are not modelled, and `py.clock` renders every number even where `datetime.fromtimestamp` would raise on an out-of-range one. Neither is the collapsing of keys that Python treats as equal (`True == 1`, `1 == 1.0`).
- `Analyze.AnalyzeEntries` keeps `endpoint_methods` as sets. The source turns them into `sorted()` lists.
- Inputs on which the source raises are excluded with `requires`:
  - `.get` on a non-dict entry, request, response, message, usage or usage details (`EntryShaped` for an entry);
  - a truthy timestamp that is not a number in the conversation log, which `datetime.fromtimestamp` rejects (`LogShaped`);
  - truthy instructions or tool-call arguments that are neither a string nor a list, which `len` or slicing rejects;
  - token counts that are not numbers, which the `,` format rejects.
- `Analyze.MethodOf`: requires a string method. The source also counts a `None` or numeric method under that value.
- `Analyze.EndpointOf`: requires a string URL. In the source `urlparse` gives an empty path, and so the endpoint `/`, for a falsy non-string URL.
- `Analyze.RedactField`: requires a string value for a redacted header. The source turns a list or dict of up to 20 items into the marker, raises on longer lists and dicts, and raises in `len` on `None`, booleans and numbers.
- `Analyze.StatsShaped`: requires a number for every truthy timestamp. The source's `analyze` also accepts a single truthy non-number timestamp, because with fewer than two timestamps it never compares or subtracts them. With two or more, a non-number among them makes `max`, `min` or the subtraction raise.
- Header dicts have distinct names (`HeaderDictShaped`). `json.loads` already guarantees this, since a later duplicate key replaces the earlier one.
- `CodexCalls.FindExecFinalMessage`: treats an unhashable (list or dict) item `type` as a non-match. The source's set-membership test raises `TypeError` on one.
- `CodexCalls.ParseAppServerAgentText`: treats an unhashable `method` or item `type` as a non-match. The source raises `TypeError` instead.
- `Responses.FormatResponseBody`: takes the status code but ignores it, as the source does.
- `bytes` bodies are not modelled. Only strings and parsed JSON values arrive from the JSONL capture.
