/** The OpenAI Responses body renderers (openai_responses.py): a request body
    or a response body (usually an event stream) rendered as Markdown lines
    joined with newlines. */
module Responses {
  import opened Wrappers
  import opened Text
  import opened Json
  import Counter
  import Sse

  const NoBody := "*(no body)*"

  /** The collapsed fenced block used for a body shown as-is. */
  function BodyBlock(text: string): string
  {
    "<details>\n<summary><b>Body</b> (" + Grouped(|text|) + " bytes)</summary>\n\n```\n" + text + "\n```\n</details>"
  }

  // ---------------------------------------------------------------------
  // Message content helpers
  // ---------------------------------------------------------------------

  /** A content-list item whose `text` can be joined: non-dicts are skipped,
      and a dict's `text` (default `""`) must be a string. */
  predicate TextItemShaped(item: Value)
  {
    item.JObject? ==> Get(item, "text", JString("")).JString?
  }

  predicate ContentShaped(content: Value)
  {
    content.JArray? ==> forall i :: 0 <= i < |content.items| ==> TextItemShaped(content.items[i])
  }

  /** The `text` of every dict item, in order. */
  function ItemTexts(items: seq<Value>): seq<string>
    requires forall i :: 0 <= i < |items| ==> TextItemShaped(items[i])
  {
    if items == [] then []
    else
      var last := items[|items| - 1];
      assert TextItemShaped(last);
      ItemTexts(items[..|items| - 1]) + (if last.JObject? then [Get(last, "text", JString("")).s] else [])
  }

  /** The text `_message_content_preview` starts from, before newlines are
      replaced and the text is stripped. */
  function PreviewSource(content: Value, py: Foreign): string
    requires ContentShaped(content)
  {
    match content
    case JString(s) => s
    case JArray(items) => Join(ItemTexts(items), " ")
    case _ => Show(content, py)
  }

  function PreviewOf(content: Value, maxLen: nat, py: Foreign): string
    requires ContentShaped(content)
  {
    if content.JNull? then "*(none)*"
    else
      var text := Strip(ReplaceChar(PreviewSource(content, py), '\n', ' '));
      if |text| > maxLen then text[..maxLen] + "..."
      else if text == "" then "*(empty)*"
      else text
  }

  function FullTextOf(content: Value, py: Foreign): string
    requires ContentShaped(content)
  {
    match content
    case JNull => ""
    case JString(s) => s
    case JArray(items) => Join(ItemTexts(items), "\n")
    case _ => Show(content, py)
  }

  /** Collect item texts as the helpers' loop does. */
  method CollectTexts(items: seq<Value>) returns (texts: seq<string>)
    requires forall i :: 0 <= i < |items| ==> TextItemShaped(items[i])
    ensures texts == ItemTexts(items)
  {
    texts := [];
    for i := 0 to |items|
      invariant texts == ItemTexts(items[..i])
    {
      assert items[..i + 1][..i] == items[..i];
      var item := items[i];
      if item.JObject? {
        texts := texts + [Get(item, "text", JString("")).s];
      }
    }
    assert items[..|items|] == items;
  }

  /** `_message_content_preview(content, max_len)`. */
  method MessageContentPreview(content: Value, maxLen: nat, py: Foreign) returns (r: string)
    requires ContentShaped(content)
    ensures r == PreviewOf(content, maxLen, py)
  {
    if content.JNull? {
      return "*(none)*";
    }
    var text: string;
    if content.JString? {
      text := content.s;
    } else if content.JArray? {
      var texts := CollectTexts(content.items);
      text := Join(texts, " ");
    } else {
      text := Show(content, py);
    }
    text := Strip(ReplaceChar(text, '\n', ' '));
    if |text| > maxLen {
      return text[..maxLen] + "...";
    }
    r := if text != "" then text else "*(empty)*";
  }

  /** `_message_content_full(content)`. */
  method MessageContentFull(content: Value, py: Foreign) returns (r: string)
    requires ContentShaped(content)
    ensures r == FullTextOf(content, py)
  {
    if content.JNull? {
      return "";
    }
    if content.JString? {
      return content.s;
    }
    if content.JArray? {
      var texts := CollectTexts(content.items);
      return Join(texts, "\n");
    }
    r := Show(content, py);
  }

  // ---------------------------------------------------------------------
  // Request body
  // ---------------------------------------------------------------------

  predicate MessageShaped(msg: Value)
  {
    msg.JObject? && ContentShaped(Get(msg, "content", JNull))
  }

  /** What `format_request_body` needs of a dict body so as not to raise:
      truthy `instructions` is a string or a list (the kinds `len` and slicing
      accept), truthy `input` is a list of dict
      messages whose list contents hold string texts, truthy `tools` is a list
      of dicts. */
  predicate RequestShaped(body: Value)
  {
    body.JObject? ==>
      var instructions := Get(body, "instructions", JString(""));
      var input := Get(body, "input", JArray([]));
      var tools := Get(body, "tools", JArray([]));
      && (Truthy(instructions) ==> instructions.JString? || instructions.JArray?)
      && (Truthy(input) ==> input.JArray? && forall i :: 0 <= i < |input.items| ==> MessageShaped(input.items[i]))
      && (Truthy(tools) ==> tools.JArray? && forall i :: 0 <= i < |tools.items| ==> tools.items[i].JObject?)
  }

  const ConfigKeys: seq<string> := ["stream", "tool_choice", "parallel_tool_calls", "store"]

  function ModelPart(body: Value, py: Foreign): string
    requires body.JObject?
  {
    "**Model:** `" + Show(Get(body, "model", JString("unknown")), py) + "`"
  }

  function ConfigPart(body: Value, key: string, py: Foreign): string
    requires body.JObject?
  {
    "**" + key + ":** `" + Show(Get(body, key, JNull), py) + "`"
  }

  /** The parts for those of `keys` present in the body, in the order of `keys`. */
  function ConfigParts(body: Value, keys: seq<string>, py: Foreign): seq<string>
    requires body.JObject?
  {
    if keys == [] then []
    else
      var key := keys[|keys| - 1];
      ConfigParts(body, keys[..|keys| - 1], py) + (if HasKey(body, key) then [ConfigPart(body, key, py)] else [])
  }

  function ReasoningParts(body: Value, py: Foreign): seq<string>
    requires body.JObject?
  {
    var reasoning := Get(body, "reasoning", JNull);
    if Truthy(reasoning) && reasoning.JObject? then
      ["**reasoning:** `" + Show(Get(reasoning, "summary", Get(reasoning, "effort", JString(""))), py) + "`"]
    else []
  }

  function SummaryParts(body: Value, py: Foreign): seq<string>
    requires body.JObject?
  {
    [ModelPart(body, py)] + ConfigParts(body, ConfigKeys, py) + ReasoningParts(body, py)
  }

  /** `len(v)` of a string or a list. */
  function Size(v: Value): nat
    requires v.JString? || v.JArray?
  {
    if v.JString? then |v.s| else |v.items|
  }

  /** The three one-character strings `preview += "..."` appends to a list. */
  const Dots: seq<Value> := [JString("."), JString("."), JString(".")]

  /** `items[:n]`, followed by `Dots` when the list is longer than `n`. */
  function ItemsPreview(items: seq<Value>, n: nat): seq<Value>
  {
    items[..if n <= |items| then n else |items|] + (if |items| > n then Dots else [])
  }

  /** The first 500 characters, with `...` when the text is longer. */
  function InstructionsPreview(instructions: string): string
  {
    Take(instructions, 500) + (if |instructions| > 500 then "..." else "")
  }

  /** The instructions block; `len` counts characters of a string and items of a list. */
  function InstructionsBlock(instructions: Value, py: Foreign): string
    requires instructions.JString? || instructions.JArray?
  {
    var preview := if instructions.JString? then InstructionsPreview(instructions.s)
      else Show(JArray(ItemsPreview(instructions.items, 500)), py);
    "<details>\n<summary><b>System Instructions</b> (" + Grouped(Size(instructions)) + " chars)</summary>\n\n```\n"
    + preview + "\n```\n</details>"
  }

  function InstructionsLines(body: Value, py: Foreign): seq<string>
    requires body.JObject? && RequestShaped(body)
  {
    var instructions := Get(body, "instructions", JString(""));
    if Truthy(instructions) then [InstructionsBlock(instructions, py), ""] else []
  }

  function Content(msg: Value): Value
    requires msg.JObject?
  {
    Get(msg, "content", JNull)
  }

  function MessageRow(idx: nat, msg: Value, py: Foreign): string
    requires MessageShaped(msg)
  {
    "| " + NatStr(idx) + " | " + Show(Get(msg, "role", JString("-")), py) + " | "
    + Show(Get(msg, "type", JString("-")), py) + " | " + PreviewOf(Content(msg), 80, py) + " |"
  }

  predicate MessagesShaped(msgs: seq<Value>)
  {
    forall i :: 0 <= i < |msgs| ==> MessageShaped(msgs[i])
  }

  /** Table rows for the first `n` messages. */
  function MessageRows(msgs: seq<Value>, n: nat, py: Foreign): seq<string>
    requires n <= |msgs| && MessagesShaped(msgs)
  {
    if n == 0 then [] else MessageRows(msgs, n - 1, py) + [MessageRow(n - 1, msgs[n - 1], py)]
  }

  predicate IsLong(msgs: seq<Value>, i: nat, py: Foreign)
    requires i < |msgs| && MessagesShaped(msgs)
  {
    |FullTextOf(Content(msgs[i]), py)| > 120
  }

  function FullContentBlock(msgs: seq<Value>, i: nat, py: Foreign): string
    requires i < |msgs| && MessagesShaped(msgs)
  {
    var full := FullTextOf(Content(msgs[i]), py);
    "<details>\n<summary>Message " + NatStr(i) + " (" + Show(Get(msgs[i], "role", JString("-")), py)
    + ") full content (" + Grouped(|full|) + " chars)</summary>\n\n```\n" + full + "\n```\n</details>"
  }

  /** Full-content sections for the long ones among the first `n` messages. */
  function FullContentLines(msgs: seq<Value>, n: nat, py: Foreign): seq<string>
    requires n <= |msgs| && MessagesShaped(msgs)
  {
    if n == 0 then []
    else
      FullContentLines(msgs, n - 1, py)
      + (if IsLong(msgs, n - 1, py) then [FullContentBlock(msgs, n - 1, py), ""] else [])
  }

  const TableHeader: seq<string> := ["| # | Role | Type | Content Preview |", "|---|------|------|-----------------|"]

  function InputLines(body: Value, py: Foreign): seq<string>
    requires body.JObject? && RequestShaped(body)
  {
    var input := Get(body, "input", JArray([]));
    if Truthy(input) then
      var msgs := input.items;
      ["**Input Messages** (" + NatStr(|msgs|) + " items):", ""] + TableHeader
      + MessageRows(msgs, |msgs|, py) + [""] + FullContentLines(msgs, |msgs|, py)
    else []
  }

  function ToolItem(tool: Value, py: Foreign): string
    requires tool.JObject?
  {
    var name := Get(tool, "name", JNull);
    "- `" + (if Truthy(name) then Show(name, py) else "(unnamed)") + "` ("
    + Show(Get(tool, "type", JString("function")), py) + ")"
  }

  function ToolItems(tools: seq<Value>, n: nat, py: Foreign): seq<string>
    requires n <= |tools| && forall i :: 0 <= i < |tools| ==> tools[i].JObject?
  {
    if n == 0 then [] else ToolItems(tools, n - 1, py) + [ToolItem(tools[n - 1], py)]
  }

  function ToolsBlock(count: nat, items: seq<string>): string
  {
    "<details>\n<summary><b>Tools</b> (" + NatStr(count) + " defined)</summary>\n\n" + Join(items, "\n") + "\n</details>"
  }

  function ToolLines(body: Value, py: Foreign): seq<string>
    requires body.JObject? && RequestShaped(body)
  {
    var tools := Get(body, "tools", JArray([]));
    if Truthy(tools) then [ToolsBlock(|tools.items|, ToolItems(tools.items, |tools.items|, py)), ""] else []
  }

  /** The lines a dict request body renders to. */
  function RequestLines(body: Value, py: Foreign): seq<string>
    requires body.JObject? && RequestShaped(body)
  {
    [Join(SummaryParts(body, py), " | "), ""] + InstructionsLines(body, py) + InputLines(body, py) + ToolLines(body, py)
  }

  /** What `format_request_body(body)` returns. */
  function RequestMarkdown(body: Value, py: Foreign): string
    requires RequestShaped(body)
  {
    match body
    case JNull => NoBody
    case JString(s) => BodyBlock(s)
    case JObject(_) => Join(RequestLines(body, py), "\n")
    case _ => BodyBlock(Show(body, py))
  }

  /** The summary line's parts, collected as the source's loop over the
      configuration keys does. */
  method CollectSummaryParts(body: Value, py: Foreign) returns (parts: seq<string>)
    requires body.JObject?
    ensures parts == SummaryParts(body, py)
  {
    parts := [ModelPart(body, py)];
    for k := 0 to |ConfigKeys|
      invariant parts == [ModelPart(body, py)] + ConfigParts(body, ConfigKeys[..k], py)
    {
      assert ConfigKeys[..k + 1][..k] == ConfigKeys[..k];
      var key := ConfigKeys[k];
      if HasKey(body, key) {
        parts := parts + [ConfigPart(body, key, py)];
      }
    }
    assert ConfigKeys[..|ConfigKeys|] == ConfigKeys;
    parts := parts + ReasoningParts(body, py);
  }

  /** The preview table's rows. */
  method RenderMessageRows(msgs: seq<Value>, py: Foreign) returns (rows: seq<string>)
    requires MessagesShaped(msgs)
    ensures rows == MessageRows(msgs, |msgs|, py)
  {
    rows := [];
    for idx := 0 to |msgs|
      invariant rows == MessageRows(msgs, idx, py)
    {
      var msg := msgs[idx];
      var preview := MessageContentPreview(Content(msg), 80, py);
      var row := "| " + NatStr(idx) + " | " + Show(Get(msg, "role", JString("-")), py) + " | "
        + Show(Get(msg, "type", JString("-")), py) + " | " + preview + " |";
      assert row == MessageRow(idx, msg, py);
      assert MessageRows(msgs, idx + 1, py) == rows + [row];
      rows := rows + [row];
    }
  }

  /** The full-content sections of the long messages. */
  method RenderFullContents(msgs: seq<Value>, py: Foreign) returns (lines: seq<string>)
    requires MessagesShaped(msgs)
    ensures lines == FullContentLines(msgs, |msgs|, py)
  {
    lines := [];
    for idx := 0 to |msgs|
      invariant lines == FullContentLines(msgs, idx, py)
    {
      var fullText := MessageContentFull(Content(msgs[idx]), py);
      if fullText != "" && |fullText| > 120 {
        lines := lines + [FullContentBlock(msgs, idx, py), ""];
      }
    }
  }

  method RenderToolItems(tools: seq<Value>, py: Foreign) returns (items: seq<string>)
    requires forall i :: 0 <= i < |tools| ==> tools[i].JObject?
    ensures items == ToolItems(tools, |tools|, py)
  {
    items := [];
    for t := 0 to |tools|
      invariant items == ToolItems(tools, t, py)
    {
      items := items + [ToolItem(tools[t], py)];
    }
  }

  /** `format_request_body(body)`. */
  method FormatRequestBody(body: Value, py: Foreign) returns (out: string)
    requires RequestShaped(body)
    ensures out == RequestMarkdown(body, py)
  {
    if body.JNull? {
      return NoBody;
    }
    if body.JString? {
      return BodyBlock(body.s);
    }
    if !body.JObject? {
      return BodyBlock(Show(body, py));
    }

    var summaryParts := CollectSummaryParts(body, py);
    var lines := [Join(summaryParts, " | "), ""];

    var instructionLines := [];
    var instructions := Get(body, "instructions", JString(""));
    if Truthy(instructions) {
      instructionLines := [InstructionsBlock(instructions, py), ""];
    }
    assert instructionLines == InstructionsLines(body, py);

    var inputLines := [];
    var input := Get(body, "input", JArray([]));
    if Truthy(input) {
      var msgs := input.items;
      var rows := RenderMessageRows(msgs, py);
      var fullContents := RenderFullContents(msgs, py);
      inputLines := ["**Input Messages** (" + NatStr(|msgs|) + " items):", ""] + TableHeader + rows + [""] + fullContents;
    }
    assert inputLines == InputLines(body, py);

    var toolLines := [];
    var tools := Get(body, "tools", JArray([]));
    if Truthy(tools) {
      var toolItems := RenderToolItems(tools.items, py);
      toolLines := [ToolsBlock(|tools.items|, toolItems), ""];
    }
    assert toolLines == ToolLines(body, py);
    lines := lines + instructionLines + inputLines + toolLines;
    out := Join(lines, "\n");
  }

  // ---------------------------------------------------------------------
  // Response body
  // ---------------------------------------------------------------------

  const OutputDelta := "response.output_text.delta"
  const ReasoningDelta := "response.reasoning_summary_text.delta"
  const ArgumentsDone := "response.function_call_arguments.done"
  const Completed := "response.completed"

  /** The event's data when it is a dict; events with any other data are skipped. */
  function DictData(e: Sse.Event): Option<Value>
  {
    if e.data.Parsed? && e.data.value.JObject? then Some(e.data.value) else None
  }

  /** What the event loop needs of one event so as not to raise. */
  predicate EventShaped(e: Sse.Event)
  {
    match DictData(e)
    case None => true
    case Some(d) =>
      && ((e.event == OutputDelta || e.event == ReasoningDelta) ==> Get(d, "delta", JString("")).JString?)
      && (e.event == Completed ==> Get(d, "response", JObject([])).JObject?)
      && (e.event == ArgumentsDone ==> var a := Get(d, "arguments", JString("")); Truthy(a) ==> a.JString? || a.JArray?)
  }

  predicate EventsShaped(events: seq<Sse.Event>)
  {
    forall i :: 0 <= i < |events| ==> EventShaped(events[i])
  }

  /** The `delta` texts of the dict events of type `etype`, in event order. */
  function DeltaParts(events: seq<Sse.Event>, etype: string): seq<string>
    requires EventsShaped(events)
    requires etype == OutputDelta || etype == ReasoningDelta
  {
    if events == [] then []
    else
      var e := events[|events| - 1];
      DeltaParts(events[..|events| - 1], etype)
      + (if e.event == etype && DictData(e).Some? then [Get(DictData(e).value, "delta", JString("")).s] else [])
  }

  datatype ToolCall = ToolCall(name: Value, callId: Value, arguments: Value)

  function ToolCallOf(d: Value): ToolCall
    requires d.JObject?
  {
    ToolCall(Get(d, "name", JString("(unnamed)")), Get(d, "call_id", JString("")), Get(d, "arguments", JString("")))
  }

  /** One tool call per dict `response.function_call_arguments.done` event, in order. */
  function ToolCalls(events: seq<Sse.Event>): seq<ToolCall>
  {
    if events == [] then []
    else
      var e := events[|events| - 1];
      ToolCalls(events[..|events| - 1])
      + (if e.event == ArgumentsDone && DictData(e).Some? then [ToolCallOf(DictData(e).value)] else [])
  }

  predicate IsCompletion(e: Sse.Event)
  {
    e.event == Completed && DictData(e).Some?
  }

  function UsageOf(e: Sse.Event): Value
    requires IsCompletion(e) && EventShaped(e)
  {
    Get(Get(DictData(e).value, "response", JObject([])), "usage", JNull)
  }

  /** `usage` after the loop: overwritten by every dict `response.completed` event. */
  function LastUsage(events: seq<Sse.Event>): Value
    requires EventsShaped(events)
  {
    if events == [] then JNull
    else
      var e := events[|events| - 1];
      if IsCompletion(e) then UsageOf(e) else LastUsage(events[..|events| - 1])
  }

  /** A value `f"{v:,}"` accepts: an int, a bool (an int subclass) or a float. */
  predicate IsCount(v: Value)
  {
    v.JInt? || v.JBool? || v.JFloat?
  }

  /** A detail count is formatted only when it is truthy. */
  predicate DetailShaped(details: Value, key: string)
    requires details.JObject?
  {
    var v := Get(details, key, JNull);
    Truthy(v) ==> IsCount(v)
  }

  /** What the usage section needs so as not to raise: a dict whose totals are
      counts, whose detail entries are dicts, and whose truthy details are counts. */
  predicate UsageShaped(usage: Value)
  {
    Truthy(usage) ==>
      && usage.JObject?
      && IsCount(Get(usage, "input_tokens", JInt(0)))
      && IsCount(Get(usage, "output_tokens", JInt(0)))
      && IsCount(Get(usage, "total_tokens", JInt(0)))
      && Get(usage, "input_tokens_details", JObject([])).JObject?
      && Get(usage, "output_tokens_details", JObject([])).JObject?
      && DetailShaped(Get(usage, "input_tokens_details", JObject([])), "cached_tokens")
      && DetailShaped(Get(usage, "output_tokens_details", JObject([])), "reasoning_tokens")
  }

  predicate StreamShaped(events: seq<Sse.Event>)
  {
    EventsShaped(events) && UsageShaped(LastUsage(events))
  }

  predicate IsSse(s: string)
  {
    StartsWith(LStrip(s), "event:")
  }

  /** What `format_response_body` needs so as not to raise. */
  predicate ResponseShaped(body: Value, py: Foreign)
  {
    body.JString? && IsSse(body.s) ==> StreamShaped(Sse.Decode(body.s, py.loads))
  }

  function EventTypes(events: seq<Sse.Event>): (r: seq<string>)
    ensures |r| == |events|
  {
    seq(|events|, i requires 0 <= i < |events| => events[i].event)
  }

  function CountRow(entry: (string, nat)): string
  {
    "| `" + entry.0 + "` | " + NatStr(entry.1) + " |"
  }

  function CountRows(counts: Counter.Counts<string>): seq<string>
  {
    if counts == [] then [] else CountRows(counts[..|counts| - 1]) + [CountRow(counts[|counts| - 1])]
  }

  function TextBlock(title: string, text: string): string
  {
    "<details>\n<summary><b>" + title + "</b> (" + Grouped(|text|) + " chars)</summary>\n\n```\n" + text + "\n```\n</details>"
  }

  function TextLines(title: string, parts: seq<string>): seq<string>
  {
    if parts != [] then [TextBlock(title, Concat(parts)), ""] else []
  }

  /** The first 300 characters of the arguments, with `...` when longer. */
  function ArgumentsPreview(arguments: string): string
  {
    Take(arguments, 300) + (if |arguments| > 300 then "..." else "")
  }

  /** Truthy arguments are a string or a list, which slicing accepts. */
  predicate ToolCallShaped(tc: ToolCall)
  {
    Truthy(tc.arguments) ==> tc.arguments.JString? || tc.arguments.JArray?
  }

  /** The arguments preview: cut to 300 characters, or to 300 items shown with `str()`. */
  function ArgumentsText(arguments: Value, py: Foreign): string
    requires arguments.JString? || arguments.JArray?
  {
    if arguments.JString? then ArgumentsPreview(arguments.s) else Show(JArray(ItemsPreview(arguments.items, 300)), py)
  }

  function ToolCallItem(tc: ToolCall, py: Foreign): seq<string>
    requires ToolCallShaped(tc)
  {
    ["- `" + Show(tc.name, py) + "` (call_id: `" + Show(tc.callId, py) + "`)"]
    + (if Truthy(tc.arguments) then ["  ```\n  " + ArgumentsText(tc.arguments, py) + "\n  ```"] else [])
  }

  function ToolCallItems(calls: seq<ToolCall>, py: Foreign): seq<string>
    requires forall i :: 0 <= i < |calls| ==> ToolCallShaped(calls[i])
  {
    if calls == [] then [] else ToolCallItems(calls[..|calls| - 1], py) + ToolCallItem(calls[|calls| - 1], py)
  }

  function ToolCallLines(calls: seq<ToolCall>, py: Foreign): seq<string>
    requires forall i :: 0 <= i < |calls| ==> ToolCallShaped(calls[i])
  {
    if calls != [] then ["**Tool Calls** (" + NatStr(|calls|) + "):", ""] + ToolCallItems(calls, py) + [""] else []
  }

  /** `f"{v:,}"` for a token count. */
  function FormatCount(v: Value, py: Foreign): string
    requires IsCount(v)
  {
    match v
    case JInt(i) => IntGrouped(i)
    case JBool(b) => if b then "1" else "0"
    case _ => py.group(v)
  }

  /** The `input`, `output` and `total` token counts. */
  function UsageTotals(usage: Value, py: Foreign): seq<string>
    requires usage.JObject? && UsageShaped(usage)
  {
    [FormatCount(Get(usage, "input_tokens", JInt(0)), py) + " input",
     FormatCount(Get(usage, "output_tokens", JInt(0)), py) + " output",
     FormatCount(Get(usage, "total_tokens", JInt(0)), py) + " total"]
  }

  /** A detail count, shown only when truthy. */
  function UsageDetail(details: Value, key: string, suffix: string, py: Foreign): seq<string>
    requires details.JObject? && DetailShaped(details, key)
  {
    var v := Get(details, key, JNull);
    if Truthy(v) then [FormatCount(v, py) + suffix] else []
  }

  function UsageDetails(usage: Value, py: Foreign): seq<string>
    requires usage.JObject? && UsageShaped(usage)
  {
    UsageDetail(Get(usage, "input_tokens_details", JObject([])), "cached_tokens", " cached", py)
    + UsageDetail(Get(usage, "output_tokens_details", JObject([])), "reasoning_tokens", " reasoning", py)
  }

  function UsageLine(usage: Value, py: Foreign): string
    requires usage.JObject? && UsageShaped(usage)
  {
    var details := UsageDetails(usage, py);
    "**Usage:** " + Join(UsageTotals(usage, py), " | ") + (if details != [] then " (" + Join(details, ", ") + ")" else "")
  }

  function UsageLines(usage: Value, py: Foreign): seq<string>
    requires UsageShaped(usage)
  {
    if Truthy(usage) then [UsageLine(usage, py), ""] else []
  }

  function StreamHeader(body: string, eventCount: nat): seq<string>
  {
    ["**SSE Stream** (" + Grouped(|body|) + " bytes, " + NatStr(eventCount) + " events)", "",
     "| Event Type | Count |", "|------------|-------|"]
  }

  lemma ToolCallsShaped(events: seq<Sse.Event>)
    requires EventsShaped(events)
    ensures forall i :: 0 <= i < |ToolCalls(events)| ==> ToolCallShaped(ToolCalls(events)[i])
  {
    if events != [] {
      ToolCallsShaped(events[..|events| - 1]);
    }
  }

  /** The lines an event-stream body renders to. */
  function StreamLines(body: string, events: seq<Sse.Event>, py: Foreign): seq<string>
    requires StreamShaped(events)
  {
    ToolCallsShaped(events);
    StreamHeader(body, |events|) + CountRows(Counter.MostCommon(Counter.Tally(EventTypes(events)), None)) + [""]
    + TextLines("Output Text", DeltaParts(events, OutputDelta))
    + TextLines("Reasoning Summary", DeltaParts(events, ReasoningDelta))
    + ToolCallLines(ToolCalls(events), py)
    + UsageLines(LastUsage(events), py)
  }

  /** What `format_response_body(body, status_code)` returns. */
  function ResponseMarkdown(body: Value, py: Foreign): string
    requires ResponseShaped(body, py)
  {
    match body
    case JNull => NoBody
    case JObject(_) =>
      var formatted := py.dumpsIndented(body);
      "<details>\n<summary><b>Body</b> (" + Grouped(|formatted|) + " bytes)</summary>\n\n```json\n" + formatted + "\n```\n</details>"
    case JString(s) =>
      if !IsSse(s) then BodyBlock(s) else Join(StreamLines(s, Sse.Decode(s, py.loads), py), "\n")
    case _ => BodyBlock(Show(body, py))
  }

  method RenderCountRows(counts: Counter.Counts<string>) returns (rows: seq<string>)
    ensures rows == CountRows(counts)
  {
    rows := [];
    for k := 0 to |counts|
      invariant rows == CountRows(counts[..k])
    {
      assert counts[..k + 1][..k] == counts[..k];
      rows := rows + [CountRow(counts[k])];
    }
    assert counts[..|counts|] == counts;
  }

  /** The source's single pass over the events. */
  method ScanEvents(events: seq<Sse.Event>)
    returns (outputTextParts: seq<string>, reasoningTextParts: seq<string>, toolCalls: seq<ToolCall>, usage: Value)
    requires EventsShaped(events)
    ensures outputTextParts == DeltaParts(events, OutputDelta)
    ensures reasoningTextParts == DeltaParts(events, ReasoningDelta)
    ensures toolCalls == ToolCalls(events)
    ensures usage == LastUsage(events)
  {
    outputTextParts, reasoningTextParts, toolCalls, usage := [], [], [], JNull;
    for i := 0 to |events|
      invariant outputTextParts == DeltaParts(events[..i], OutputDelta)
      invariant reasoningTextParts == DeltaParts(events[..i], ReasoningDelta)
      invariant toolCalls == ToolCalls(events[..i])
      invariant usage == LastUsage(events[..i])
    {
      assert events[..i + 1][..i] == events[..i];
      assert events[..i + 1][i] == events[i];
      var e := events[i];
      var etype := e.event;
      if DictData(e).Some? {
        var data := DictData(e).value;
        if etype == OutputDelta {
          outputTextParts := outputTextParts + [Get(data, "delta", JString("")).s];
        } else if etype == ReasoningDelta {
          reasoningTextParts := reasoningTextParts + [Get(data, "delta", JString("")).s];
        } else if etype == ArgumentsDone {
          toolCalls := toolCalls + [ToolCall(Get(data, "name", JString("(unnamed)")),
            Get(data, "call_id", JString("")), Get(data, "arguments", JString("")))];
        } else if etype == Completed {
          var resp := Get(data, "response", JObject([]));
          usage := Get(resp, "usage", JNull);
        }
      }
    }
    assert events[..|events|] == events;
  }

  method RenderToolCalls(calls: seq<ToolCall>, py: Foreign) returns (lines: seq<string>)
    requires forall i :: 0 <= i < |calls| ==> ToolCallShaped(calls[i])
    ensures lines == ToolCallItems(calls, py)
  {
    lines := [];
    for t := 0 to |calls|
      invariant lines == ToolCallItems(calls[..t], py)
    {
      assert calls[..t + 1][..t] == calls[..t];
      assert calls[..t + 1][t] == calls[t];
      var tc := calls[t];
      var item := ["- `" + Show(tc.name, py) + "` (call_id: `" + Show(tc.callId, py) + "`)"];
      if Truthy(tc.arguments) {
        var argsPreview;
        if tc.arguments.JString? {
          var cut := Take(tc.arguments.s, 300);
          if |tc.arguments.s| > 300 {
            cut := cut + "...";
          } else {
            assert cut + "" == cut;
          }
          argsPreview := cut;
        } else {
          var items := tc.arguments.items;
          var cut := items[..if 300 <= |items| then 300 else |items|];
          if |items| > 300 {
            cut := cut + Dots;
          } else {
            assert cut + [] == cut;
          }
          argsPreview := Show(JArray(cut), py);
        }
        assert argsPreview == ArgumentsText(tc.arguments, py);
        item := item + ["  ```\n  " + argsPreview + "\n  ```"];
      }
      assert item == ToolCallItem(tc, py);
      lines := lines + item;
    }
    assert calls[..|calls|] == calls;
  }

  /** `format_response_body(body, status_code)`; the status code is unused, as in the source. */
  method FormatResponseBody(body: Value, statusCode: Value, py: Foreign) returns (out: string)
    requires ResponseShaped(body, py)
    ensures out == ResponseMarkdown(body, py)
  {
    if body.JNull? {
      return NoBody;
    }
    if body.JObject? {
      var formatted := py.dumpsIndented(body);
      return "<details>\n<summary><b>Body</b> (" + Grouped(|formatted|) + " bytes)</summary>\n\n```json\n" + formatted + "\n```\n</details>";
    }
    if !body.JString? {
      return BodyBlock(Show(body, py));
    }
    if !StartsWith(LStrip(body.s), "event:") {
      return BodyBlock(body.s);
    }

    var events := Sse.ParseSseEvents(body.s, py.loads);
    var eventTypeCounts := Counter.MostCommon(Counter.Tally(EventTypes(events)), None);
    var rows := RenderCountRows(eventTypeCounts);

    var outputTextParts, reasoningTextParts, toolCalls, usage := ScanEvents(events);
    var outputLines := [];
    if outputTextParts != [] {
      outputLines := [TextBlock("Output Text", Concat(outputTextParts)), ""];
    }
    var reasoningLines := [];
    if reasoningTextParts != [] {
      reasoningLines := [TextBlock("Reasoning Summary", Concat(reasoningTextParts)), ""];
    }
    ToolCallsShaped(events);
    var toolLines := [];
    if toolCalls != [] {
      var items := RenderToolCalls(toolCalls, py);
      toolLines := ["**Tool Calls** (" + NatStr(|toolCalls|) + "):", ""] + items + [""];
    }
    assert toolLines == ToolCallLines(ToolCalls(events), py);
    var usageLines := [];
    if Truthy(usage) {
      usageLines := [UsageLine(usage, py), ""];
    }
    var lines := StreamHeader(body.s, |events|) + rows + [""] + outputLines + reasoningLines + toolLines + usageLines;
    assert lines == StreamLines(body.s, events, py);
    out := Join(lines, "\n");
  }

  // ---------------------------------------------------------------------
  // Properties
  // ---------------------------------------------------------------------

  /** A content preview is never empty and never spans lines; it is one of
      the two placeholders or at most `maxLen` characters plus `...`. */
  lemma PreviewShape(content: Value, maxLen: nat, py: Foreign)
    requires ContentShaped(content)
    ensures PreviewOf(content, maxLen, py) != ""
    ensures '\n' !in PreviewOf(content, maxLen, py)
    ensures var r := PreviewOf(content, maxLen, py);
      r == "*(none)*" || r == "*(empty)*" || |r| <= maxLen + 3
  {
    if !content.JNull? {
      var flat := ReplaceChar(PreviewSource(content, py), '\n', ' ');
      assert '\n' !in flat;
      StripProps(flat);
      var text := Strip(flat);
      assert '\n' !in text;
      if |text| > maxLen {
        assert text[..maxLen] + "..." == text[..maxLen] + ['.', '.', '.'];
        forall c | c in text[..maxLen] ensures c in text {
          var k :| 0 <= k < maxLen && text[..maxLen][k] == c;
          assert text[k] == c;
        }
      }
    }
  }

  /** A short single-line string without surrounding whitespace is shown as is. */
  lemma PreviewOfPlainString(s: string, maxLen: nat, py: Foreign)
    requires s != "" && |s| <= maxLen && '\n' !in s
    requires !IsSpace(s[0]) && !IsSpace(s[|s| - 1])
    ensures PreviewOf(JString(s), maxLen, py) == s
  {
    assert ReplaceChar(s, '\n', ' ') == s;
    StripKeeps(s);
  }

  /** A string content's full text is the string itself, so nothing is lost
      in the full-content section. */
  lemma FullTextOfString(s: string, py: Foreign)
    ensures FullTextOf(JString(s), py) == s
    ensures s == "" ==> FullTextOf(JNull, py) == s
  {
  }

  /** The configuration parts follow the fixed key order, each present only
      when its key is in the body. */
  lemma ConfigPartsOrder(body: Value, py: Foreign)
    requires body.JObject?
    ensures ConfigParts(body, ConfigKeys, py) ==
      (if HasKey(body, "stream") then [ConfigPart(body, "stream", py)] else [])
      + (if HasKey(body, "tool_choice") then [ConfigPart(body, "tool_choice", py)] else [])
      + (if HasKey(body, "parallel_tool_calls") then [ConfigPart(body, "parallel_tool_calls", py)] else [])
      + (if HasKey(body, "store") then [ConfigPart(body, "store", py)] else [])
  {
    var k1, k2, k3 := ["stream"], ["stream", "tool_choice"], ["stream", "tool_choice", "parallel_tool_calls"];
    assert k1[..0] == [] && k2[..1] == k1 && k3[..2] == k2 && ConfigKeys[..3] == k3;
    var p1 := if HasKey(body, "stream") then [ConfigPart(body, "stream", py)] else [];
    var p2 := if HasKey(body, "tool_choice") then [ConfigPart(body, "tool_choice", py)] else [];
    var p3 := if HasKey(body, "parallel_tool_calls") then [ConfigPart(body, "parallel_tool_calls", py)] else [];
    assert ConfigParts(body, k1, py) == p1;
    assert ConfigParts(body, k2, py) == p1 + p2;
    assert ConfigParts(body, k3, py) == p1 + p2 + p3;
  }

  lemma FirstOfAppend<T>(a: seq<T>, b: seq<T>)
    requires a != []
    ensures a + b != [] && (a + b)[0] == a[0]
  {
  }

  /** The summary comes first and starts with the model, `unknown` when absent. */
  lemma SummaryFirst(body: Value, py: Foreign)
    requires body.JObject? && RequestShaped(body)
    ensures RequestLines(body, py)[0] == Join(SummaryParts(body, py), " | ")
    ensures StartsWith(RequestLines(body, py)[0], ModelPart(body, py))
  {
    var parts := SummaryParts(body, py);
    var summary := Join(parts, " | ");
    FirstOfAppend([summary, ""], InstructionsLines(body, py));
    FirstOfAppend([summary, ""] + InstructionsLines(body, py), InputLines(body, py));
    FirstOfAppend([summary, ""] + InstructionsLines(body, py) + InputLines(body, py), ToolLines(body, py));
    FirstOfAppend([ModelPart(body, py)], ConfigParts(body, ConfigKeys, py));
    FirstOfAppend([ModelPart(body, py)] + ConfigParts(body, ConfigKeys, py), ReasoningParts(body, py));
    JoinStartsWithFirst(parts, " | ");
  }

  /** A body without a model names it `unknown`. */
  lemma ModelUnknown(body: Value, py: Foreign)
    requires body.JObject? && !HasKey(body, "model")
    ensures ModelPart(body, py) == "**Model:** `unknown`"
  {
    assert Get(body, "model", JString("unknown")) == JString("unknown");
    var open, close := "**Model:** `", "`";
    assert open + "unknown" + close == "**Model:** `unknown`";
  }

  /** A body with no instructions, input or tools renders as its summary alone. */
  lemma SummaryOnly(body: Value, py: Foreign)
    requires body.JObject? && RequestShaped(body)
    requires !Truthy(Get(body, "instructions", JString("")))
    requires !Truthy(Get(body, "input", JArray([])))
    requires !Truthy(Get(body, "tools", JArray([])))
    ensures RequestMarkdown(body, py) == Join(SummaryParts(body, py), " | ") + "\n"
  {
    var summary := Join(SummaryParts(body, py), " | ");
    assert RequestLines(body, py) == [summary, ""];
    assert [summary, ""][1..] == [""];
    assert Join([summary, ""], "\n") == summary + "\n" + "";
  }

  /** Instructions over 500 characters are cut to 500 and marked; shorter
      ones are shown whole. */
  lemma InstructionsPreviewProps(instructions: string)
    ensures |instructions| <= 500 ==> InstructionsPreview(instructions) == instructions
    ensures |instructions| > 500 ==>
      InstructionsPreview(instructions) == instructions[..500] + "..."
      && |InstructionsPreview(instructions)| == 503
  {
    if |instructions| <= 500 {
      assert instructions + "" == instructions;
    }
  }

  /** One table row per message, in input order. */
  lemma {:induction false} MessageRowsProps(msgs: seq<Value>, n: nat, py: Foreign)
    requires n <= |msgs| && MessagesShaped(msgs)
    ensures |MessageRows(msgs, n, py)| == n
    ensures forall i :: 0 <= i < n ==> MessageRows(msgs, n, py)[i] == MessageRow(i, msgs[i], py)
  {
    MessageRowsLength(msgs, n, py);
    forall i | 0 <= i < n
      ensures MessageRows(msgs, n, py)[i] == MessageRow(i, msgs[i], py)
    {
      MessageRowAt(msgs, n, i, py);
    }
  }

  lemma {:induction false} MessageRowsLength(msgs: seq<Value>, n: nat, py: Foreign)
    requires n <= |msgs| && MessagesShaped(msgs)
    ensures |MessageRows(msgs, n, py)| == n
  {
    if n > 0 {
      MessageRowsLength(msgs, n - 1, py);
    }
  }

  /** Row `i` of the table is the row of message `i`. */
  lemma {:induction false} MessageRowAt(msgs: seq<Value>, n: nat, i: nat, py: Foreign)
    requires i < n <= |msgs| && MessagesShaped(msgs)
    ensures i < |MessageRows(msgs, n, py)| && MessageRows(msgs, n, py)[i] == MessageRow(i, msgs[i], py)
  {
    var k := n - 1;
    MessageRowsLength(msgs, k, py);
    var prev := MessageRows(msgs, k, py);
    var last := MessageRow(k, msgs[k], py);
    assert MessageRows(msgs, n, py) == prev + [last];
    if i < k {
      MessageRowAt(msgs, k, i, py);
      SnocPrev(prev, last, i);
    } else {
      assert i == k;
      SnocLast(prev, last);
    }
  }

  /** Each row starts with the message's index. */
  lemma MessageRowNumbered(i: nat, msg: Value, py: Foreign)
    requires MessageShaped(msg)
    ensures StartsWith(MessageRow(i, msg, py), "| " + NatStr(i) + " | ")
  {
    var p := "| " + NatStr(i) + " | ";
    var role, kind := Show(Get(msg, "role", JString("-")), py), Show(Get(msg, "type", JString("-")), py);
    var preview := PreviewOf(Content(msg), 80, py);
    StartsWithSelf(p);
    PrefixOfAppend(p, role, p);
    PrefixOfAppend(p + role, " | ", p);
    PrefixOfAppend(p + role + " | ", kind, p);
    PrefixOfAppend(p + role + " | " + kind, " | ", p);
    PrefixOfAppend(p + role + " | " + kind + " | ", preview, p);
    PrefixOfAppend(p + role + " | " + kind + " | " + preview, " |", p);
  }

  /** Every long message gets its full-content section. */
  lemma {:induction false} LongMessagesShown(msgs: seq<Value>, n: nat, py: Foreign)
    requires n <= |msgs| && MessagesShaped(msgs)
    ensures forall i :: 0 <= i < n && IsLong(msgs, i, py) ==> FullContentBlock(msgs, i, py) in FullContentLines(msgs, n, py)
  {
    if n > 0 {
      LongMessagesShown(msgs, n - 1, py);
      var prev := FullContentLines(msgs, n - 1, py);
      var extra := if IsLong(msgs, n - 1, py) then [FullContentBlock(msgs, n - 1, py), ""] else [];
      assert FullContentLines(msgs, n, py) == prev + extra;
      forall i | 0 <= i < n && IsLong(msgs, i, py)
        ensures FullContentBlock(msgs, i, py) in prev + extra
      {
        if i == n - 1 {
          assert (prev + extra)[|prev|] == FullContentBlock(msgs, i, py);
        }
      }
    }
  }

  /** Only long messages get a section; every other line is blank. */
  lemma {:induction false} OnlyLongMessagesShown(msgs: seq<Value>, n: nat, py: Foreign)
    requires n <= |msgs| && MessagesShaped(msgs)
    ensures forall line :: line in FullContentLines(msgs, n, py) ==>
      line == "" || exists i :: 0 <= i < n && IsLong(msgs, i, py) && line == FullContentBlock(msgs, i, py)
  {
    if n > 0 {
      OnlyLongMessagesShown(msgs, n - 1, py);
      var prev := FullContentLines(msgs, n - 1, py);
      var extra := if IsLong(msgs, n - 1, py) then [FullContentBlock(msgs, n - 1, py), ""] else [];
      assert FullContentLines(msgs, n, py) == prev + extra;
      forall line | line in prev + extra
        ensures line == "" || exists i :: 0 <= i < n && IsLong(msgs, i, py) && line == FullContentBlock(msgs, i, py)
      {
        if line in prev {
        } else if line != "" {
          assert line == FullContentBlock(msgs, n - 1, py);
        }
      }
    }
  }

  lemma EventsShapedAppend(a: seq<Sse.Event>, b: seq<Sse.Event>)
    requires EventsShaped(a) && EventsShaped(b)
    ensures EventsShaped(a + b)
  {
    forall i | 0 <= i < |a + b| ensures EventShaped((a + b)[i]) {
      if i < |a| {
        assert (a + b)[i] == a[i];
      } else {
        assert (a + b)[i] == b[i - |a|];
      }
    }
  }

  /** Concatenating event lists concatenates their delta lists. */
  lemma {:induction false} DeltaPartsAppend(a: seq<Sse.Event>, b: seq<Sse.Event>, etype: string)
    requires EventsShaped(a + b)
    requires etype == OutputDelta || etype == ReasoningDelta
    ensures EventsShaped(a) && EventsShaped(b)
    ensures DeltaParts(a + b, etype) == DeltaParts(a, etype) + DeltaParts(b, etype)
    decreases |b|
  {
    assert EventsShaped(a) by {
      forall i | 0 <= i < |a| ensures EventShaped(a[i]) { assert a[i] == (a + b)[i]; }
    }
    assert EventsShaped(b) by {
      forall i | 0 <= i < |b| ensures EventShaped(b[i]) { assert b[i] == (a + b)[|a| + i]; }
    }
    if b == [] {
      assert a + b == a;
    } else {
      var b' := b[..|b| - 1];
      var e := b[|b| - 1];
      assert (a + b)[..|a + b| - 1] == a + b';
      assert (a + b)[|a + b| - 1] == e;
      DeltaPartsAppend(a, b', etype);
      var extra := if e.event == etype && DictData(e).Some? then [Get(DictData(e).value, "delta", JString("")).s] else [];
      assert DeltaParts(a + b, etype) == DeltaParts(a + b', etype) + extra;
      assert DeltaParts(b, etype) == DeltaParts(b', etype) + extra;
    }
  }

  /** The accumulated text of a stream is the text of its first part
      followed by the text of the rest. */
  lemma DeltaTextAppend(a: seq<Sse.Event>, b: seq<Sse.Event>, etype: string)
    requires EventsShaped(a) && EventsShaped(b)
    requires etype == OutputDelta || etype == ReasoningDelta
    ensures EventsShaped(a + b)
    ensures Concat(DeltaParts(a + b, etype)) == Concat(DeltaParts(a, etype)) + Concat(DeltaParts(b, etype))
  {
    EventsShapedAppend(a, b);
    DeltaPartsAppend(a, b, etype);
    ConcatAppend(DeltaParts(a, etype), DeltaParts(b, etype));
  }

  function DeltaEvent(etype: string, text: string): Sse.Event
  {
    Sse.Event(etype, Sse.Parsed(JObject([("delta", JString(text))])))
  }

  /** A lone delta event contributes its text to its own type only. */
  lemma DeltaEventParts(etype: string, text: string, wanted: string)
    requires etype == OutputDelta || etype == ReasoningDelta
    requires wanted == OutputDelta || wanted == ReasoningDelta
    ensures EventsShaped([DeltaEvent(etype, text)])
    ensures DeltaParts([DeltaEvent(etype, text)], wanted) == if etype == wanted then [text] else []
  {
    var e := DeltaEvent(etype, text);
    assert DictData(e) == Some(JObject([("delta", JString(text))]));
    assert [e][..0] == [];
  }

  /** The delta parts of three events are those of each, in order. */
  lemma DeltaPartsThree(e0: Sse.Event, e1: Sse.Event, e2: Sse.Event, etype: string)
    requires EventsShaped([e0]) && EventsShaped([e1]) && EventsShaped([e2])
    requires etype == OutputDelta || etype == ReasoningDelta
    ensures EventsShaped([e0, e1, e2])
    ensures DeltaParts([e0, e1, e2], etype) == DeltaParts([e0], etype) + DeltaParts([e1], etype) + DeltaParts([e2], etype)
  {
    assert [e0, e1, e2] == [e0] + [e1] + [e2];
    EventsShapedAppend([e0], [e1]);
    EventsShapedAppend([e0] + [e1], [e2]);
    DeltaPartsAppend([e0] + [e1], [e2], etype);
    DeltaPartsAppend([e0], [e1], etype);
  }

  /** Two output deltas accumulate to their concatenation, and a reasoning
      delta between them goes to the reasoning text only. */
  lemma InterleavedDeltas(x: string, y: string, z: string)
    ensures var events := [DeltaEvent(OutputDelta, x), DeltaEvent(ReasoningDelta, y), DeltaEvent(OutputDelta, z)];
      EventsShaped(events)
      && Concat(DeltaParts(events, OutputDelta)) == x + z
      && Concat(DeltaParts(events, ReasoningDelta)) == y
  {
    var e0, e1, e2 := DeltaEvent(OutputDelta, x), DeltaEvent(ReasoningDelta, y), DeltaEvent(OutputDelta, z);
    assert OutputDelta != ReasoningDelta by { assert |OutputDelta| != |ReasoningDelta|; }
    DeltaEventParts(OutputDelta, x, OutputDelta);
    DeltaEventParts(ReasoningDelta, y, OutputDelta);
    DeltaEventParts(OutputDelta, z, OutputDelta);
    DeltaPartsThree(e0, e1, e2, OutputDelta);
    assert DeltaParts([e0, e1, e2], OutputDelta) == [x, z];
    DeltaEventParts(OutputDelta, x, ReasoningDelta);
    DeltaEventParts(ReasoningDelta, y, ReasoningDelta);
    DeltaEventParts(OutputDelta, z, ReasoningDelta);
    DeltaPartsThree(e0, e1, e2, ReasoningDelta);
    assert DeltaParts([e0, e1, e2], ReasoningDelta) == [y];
    ConcatPair(x, z);
    ConcatPair([], y);
  }

  /** The event-type table accounts for every event once, each type with its
      number of occurrences, most frequent first. */
  lemma EventCountsProps(events: seq<Sse.Event>)
    ensures var counts := Counter.MostCommon(Counter.Tally(EventTypes(events)), None);
      && Counter.Total(counts) == |events|
      && Counter.NonIncreasing(counts)
      && (forall e :: e in counts ==> e.0 in EventTypes(events) && e.1 == Counter.Occurrences(EventTypes(events), e.0))
  {
    var types := EventTypes(events);
    var tally := Counter.Tally(types);
    Counter.TallyProps(types);
    Counter.MostCommonProps(tally, None);
    forall e | e in Counter.MostCommon(tally, None)
      ensures e.0 in types && e.1 == Counter.Occurrences(types, e.0)
    {
      assert e in tally;
      var j :| 0 <= j < |tally| && tally[j] == e;
      assert Counter.Keys(tally)[j] == e.0;
      GetDistinct(tally, j);
    }
  }

  lemma {:induction false} GetDistinct(c: Counter.Counts<string>, j: nat)
    requires j < |c| && Counter.DistinctKeys(c)
    ensures Counter.Get(c, c[j].0) == c[j].1
  {
    if j > 0 {
      GetDistinct(c[1..], j - 1);
    }
  }

  /** Tool calls accumulate in event order, one per `arguments.done` event. */
  lemma {:induction false} ToolCallsAppend(a: seq<Sse.Event>, b: seq<Sse.Event>)
    ensures ToolCalls(a + b) == ToolCalls(a) + ToolCalls(b)
    decreases |b|
  {
    if b == [] {
      assert a + b == a;
    } else {
      var b' := b[..|b| - 1];
      assert (a + b)[..|a + b| - 1] == a + b';
      ToolCallsAppend(a, b');
    }
  }

  lemma ToolCallsSingle(e: Sse.Event)
    ensures ToolCalls([e]) == if e.event == ArgumentsDone && DictData(e).Some? then [ToolCallOf(DictData(e).value)] else []
  {
    assert [e][..0] == [];
  }

  /** The arguments preview is at most 303 characters and starts with the
      arguments; arguments of up to 300 characters are shown whole, and longer
      ones are cut to 300 and marked with `...`. */
  lemma ArgumentsPreviewProps(arguments: string)
    ensures |ArgumentsPreview(arguments)| <= 303
    ensures StartsWith(ArgumentsPreview(arguments), Take(arguments, 300))
    ensures |arguments| <= 300 ==> ArgumentsPreview(arguments) == arguments
    ensures |arguments| > 300 ==> ArgumentsPreview(arguments) == arguments[..300] + "..."
  {
    var t := Take(arguments, 300);
    var tail := if |arguments| > 300 then "..." else "";
    assert (t + tail)[..|t|] == t;
    if |arguments| <= 300 {
      assert t + "" == t;
    }
  }

  /** A list preview keeps the first `n` items, adds three `"."` items when
      the list is longer, and keeps a list of up to `n` items whole. */
  lemma ItemsPreviewProps(items: seq<Value>, n: nat)
    ensures |items| <= n ==> ItemsPreview(items, n) == items
    ensures |items| > n ==> ItemsPreview(items, n) == items[..n] + Dots && |ItemsPreview(items, n)| == n + 3
  {
    if |items| <= n {
      assert items[..|items|] + [] == items;
    }
  }

  /** Past the null case, the table preview and the full-text section start from
      the same text once newlines become spaces: joining list items with a space
      or with a newline makes no difference after that replacement. */
  lemma PreviewIsFlattenedFull(content: Value, py: Foreign)
    requires ContentShaped(content) && !content.JNull?
    ensures ReplaceChar(PreviewSource(content, py), '\n', ' ') == ReplaceChar(FullTextOf(content, py), '\n', ' ')
  {
    if content.JArray? {
      assert ReplaceChar(" ", '\n', ' ') == ReplaceChar("\n", '\n', ' ');
      ReplaceCharJoinSeparator(ItemTexts(content.items), " ", "\n", '\n', ' ');
    }
  }

  /** The usage shown is that of the last dict `response.completed` event,
      and there is none when no such event occurs. */
  lemma {:induction false} LastUsageIsLast(events: seq<Sse.Event>, j: nat)
    requires EventsShaped(events)
    requires j < |events| && IsCompletion(events[j])
    requires forall k :: j < k < |events| ==> !IsCompletion(events[k])
    ensures LastUsage(events) == UsageOf(events[j])
    decreases |events|
  {
    if j < |events| - 1 {
      var init := events[..|events| - 1];
      assert init[j] == events[j];
      LastUsageIsLast(init, j);
    }
  }

  lemma {:induction false} NoCompletionNoUsage(events: seq<Sse.Event>)
    requires EventsShaped(events)
    requires forall k :: 0 <= k < |events| ==> !IsCompletion(events[k])
    ensures LastUsage(events) == JNull
  {
    if events != [] {
      NoCompletionNoUsage(events[..|events| - 1]);
    }
  }

  const StreamTitle := "**SSE Stream** ("

  lemma StreamLinesFirst(body: string, events: seq<Sse.Event>, py: Foreign)
    requires StreamShaped(events)
    ensures |StreamLines(body, events, py)| > 0
    ensures StreamLines(body, events, py)[0] == StreamHeader(body, |events|)[0]
  {
    assert |StreamHeader(body, |events|)| == 4;
  }

  lemma StreamHeaderTitle(body: string, eventCount: nat)
    ensures StartsWith(StreamHeader(body, eventCount)[0], StreamTitle)
  {
    var head := StreamHeader(body, eventCount)[0];
    assert head == StreamTitle + (Grouped(|body|) + " bytes, " + NatStr(eventCount) + " events)");
  }

  lemma StreamLinesHead(body: string, events: seq<Sse.Event>, py: Foreign)
    requires StreamShaped(events)
    ensures |StreamLines(body, events, py)| > 0
    ensures StartsWith(StreamLines(body, events, py)[0], StreamTitle)
  {
    StreamLinesFirst(body, events, py);
    StreamHeaderTitle(body, |events|);
  }

  /** The stream table is used exactly for string bodies that begin, after
      leading whitespace, with `event:`. */
  lemma StreamRenderingIff(s: string, py: Foreign)
    requires ResponseShaped(JString(s), py)
    ensures StartsWith(ResponseMarkdown(JString(s), py), StreamTitle) <==> IsSse(s)
  {
    if IsSse(s) {
      var events := Sse.Decode(s, py.loads);
      var lines := StreamLines(s, events, py);
      StreamLinesHead(s, events, py);
      JoinStartsWithFirst(lines, "\n");
      StartsWithTrans(Join(lines, "\n"), lines[0], StreamTitle);
    } else {
      var r := BodyBlock(s);
      assert r[0] == '<';
      assert StreamTitle[0] == '*';
    }
  }
}
