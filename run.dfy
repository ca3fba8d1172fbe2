/** The pure helpers of the tutorial script that drives the host `codex`
    CLI in its `exec --json` and `app-server` modes: de-duplication of
    candidate paths, secret scrubbing of the JSON it writes, JSONL parsing of
    the CLI's event stream, and picking the thread id, the final agent
    message and the per-run summary out of that stream. */
module CodexCalls {
  import opened Wrappers
  import opened Text
  import opened Json

  // ---------------------------------------------------------------------
  // unique_keep_order
  // ---------------------------------------------------------------------

  predicate NoDuplicates(xs: seq<string>)
  {
    forall i, j :: 0 <= i < j < |xs| ==> xs[i] != xs[j]
  }

  /** The values in order of their first occurrence, each once. */
  function Dedup(xs: seq<string>): seq<string>
  {
    if xs == [] then []
    else
      var init := xs[..|xs| - 1];
      var last := xs[|xs| - 1];
      if last in init then Dedup(init) else Dedup(init) + [last]
  }

  /** `unique_keep_order(values)`: a `seen` set guards the appends. */
  method UniqueKeepOrder(values: seq<string>) returns (ordered: seq<string>)
    ensures ordered == Dedup(values)
  {
    var seen: set<string> := {};
    ordered := [];
    for i := 0 to |values|
      invariant ordered == Dedup(values[..i])
      invariant forall x :: x in seen <==> x in values[..i]
    {
      var value := values[i];
      assert values[..i + 1][..i] == values[..i];
      assert values[..i + 1] == values[..i] + [value];
      if value !in seen {
        seen := seen + {value};
        ordered := ordered + [value];
      }
    }
    assert values[..|values|] == values;
  }

  /** The output holds exactly the input's values, each once. */
  lemma {:induction false} DedupProps(xs: seq<string>)
    ensures NoDuplicates(Dedup(xs))
    ensures forall x :: x in Dedup(xs) <==> x in xs
    ensures |Dedup(xs)| <= |xs|
  {
    if xs != [] {
      var init := xs[..|xs| - 1];
      var last := xs[|xs| - 1];
      DedupProps(init);
      assert xs == init + [last];
    }
  }

  /** The index of the first occurrence of `x`. */
  function FirstIndex(xs: seq<string>, x: string): (k: nat)
    requires x in xs
    ensures k < |xs| && xs[k] == x && x !in xs[..k]
  {
    if xs[0] == x then 0
    else
      var k := FirstIndex(xs[1..], x);
      assert xs[..k + 1] == [xs[0]] + xs[1..][..k];
      k + 1
  }

  lemma FirstIndexUnique(xs: seq<string>, x: string, k: nat)
    requires k < |xs| && xs[k] == x && x !in xs[..k]
    ensures FirstIndex(xs, x) == k
  {
    var f := FirstIndex(xs, x);
    assert forall j :: 0 <= j < f ==> xs[j] != x by {
      forall j | 0 <= j < f ensures xs[j] != x { assert xs[..f][j] == xs[j]; }
    }
    assert forall j :: 0 <= j < k ==> xs[j] != x by {
      forall j | 0 <= j < k ensures xs[j] != x { assert xs[..k][j] == xs[j]; }
    }
  }

  /** Appending values does not move the first occurrence of a present one. */
  lemma FirstIndexSnoc(xs: seq<string>, y: string, x: string)
    requires x in xs
    ensures FirstIndex(xs + [y], x) == FirstIndex(xs, x)
  {
    var k := FirstIndex(xs, x);
    assert (xs + [y])[..k] == xs[..k];
    FirstIndexUnique(xs + [y], x, k);
  }

  /** First-occurrence order is kept: earlier in the output means first seen
      earlier in the input. */
  lemma {:induction false} DedupKeepsOrder(xs: seq<string>, i: nat, j: nat)
    requires i < j < |Dedup(xs)|
    ensures Dedup(xs)[i] in xs && Dedup(xs)[j] in xs
    ensures FirstIndex(xs, Dedup(xs)[i]) < FirstIndex(xs, Dedup(xs)[j])
  {
    DedupProps(xs);
    var init := xs[..|xs| - 1];
    var last := xs[|xs| - 1];
    assert xs == init + [last];
    var d := Dedup(init);
    DedupProps(init);
    var a, b := Dedup(xs)[i], Dedup(xs)[j];
    if last in init {
      DedupKeepsOrder(init, i, j);
      FirstIndexSnoc(init, last, a);
      FirstIndexSnoc(init, last, b);
    } else if j < |d| {
      DedupKeepsOrder(init, i, j);
      assert a == d[i] && b == d[j];
      FirstIndexSnoc(init, last, a);
      FirstIndexSnoc(init, last, b);
    } else {
      assert b == last && a == d[i];
      FirstIndexSnoc(init, last, a);
      FirstIndexUnique(xs, last, |init|);
    }
  }

  /** A list with no duplicates is left as it is. */
  lemma {:induction false} DedupDistinct(xs: seq<string>)
    requires NoDuplicates(xs)
    ensures Dedup(xs) == xs
  {
    if xs != [] {
      var init := xs[..|xs| - 1];
      var last := xs[|xs| - 1];
      assert NoDuplicates(init) by {
        forall i, j | 0 <= i < j < |init| ensures init[i] != init[j] {
          assert init[i] == xs[i] && init[j] == xs[j];
        }
      }
      DedupDistinct(init);
      assert last !in init by {
        forall k | 0 <= k < |init| ensures init[k] != last { assert init[k] == xs[k]; }
      }
      assert xs == init + [last];
    }
  }

  /** De-duplicating twice is de-duplicating once. */
  lemma DedupIdempotent(xs: seq<string>)
    ensures Dedup(Dedup(xs)) == Dedup(xs)
  {
    DedupProps(xs);
    DedupDistinct(Dedup(xs));
  }

  // ---------------------------------------------------------------------
  // sanitize_for_output
  // ---------------------------------------------------------------------

  const SecretKeyHints: seq<string> := ["api_key", "apikey", "token", "secret", "password", "auth"]

  const RedactedMarker: string := "<REDACTED>"

  /** Some secret hint occurs in the (lowercased) key. */
  predicate HasSecretHint(keyLower: string)
  {
    exists i :: 0 <= i < |SecretKeyHints| && Contains(keyLower, SecretKeyHints[i])
  }

  /** A function that masking a second time leaves alone. */
  ghost predicate MaskIdempotent(mask: string -> string)
  {
    forall s :: mask(mask(s)) == mask(s)
  }

  /** `sanitize_for_output(value, key_hint)`. `mask` is `mask_string_value`
      (path and secret-pattern masking), given by the caller. */
  function Sanitize(v: Value, keyHint: string, mask: string -> string): (r: Value)
    ensures r.JObject? <==> v.JObject?
    ensures r.JArray? <==> v.JArray?
    ensures r.JString? <==> v.JString?
    ensures !v.JObject? && !v.JArray? && !v.JString? ==> r == v
    ensures v.JString? ==> r.s == if HasSecretHint(keyHint) then RedactedMarker else mask(v.s)
    ensures v.JObject? ==> |r.fields| == |v.fields| && forall i :: 0 <= i < |v.fields| ==> r.fields[i].0 == v.fields[i].0
    ensures v.JArray? ==> |r.items| == |v.items|
    decreases v, 1, 0
  {
    match v
    case JObject(fields) => JObject(SanitizeFields(v, |fields|, mask))
    case JArray(items) => JArray(SanitizeItems(v, |items|, keyHint, mask))
    case JString(s) => JString(if HasSecretHint(keyHint) then RedactedMarker else mask(s))
    case _ => v
  }

  /** One entry of a sanitized dict: a string under a hinted key is replaced,
      anything else is sanitized with the lowercased key as its hint. */
  function SanitizeField(field: (string, Value), mask: string -> string): (string, Value)
    decreases field.1, 2
  {
    var keyLower := Lower(field.0);
    if HasSecretHint(keyLower) && field.1.JString? then (field.0, JString(RedactedMarker))
    else (field.0, Sanitize(field.1, keyLower, mask))
  }

  /** The first `n` entries of a sanitized dict. */
  function SanitizeFields(obj: Value, n: nat, mask: string -> string): (r: seq<(string, Value)>)
    requires obj.JObject? && n <= |obj.fields|
    ensures |r| == n
    ensures forall i :: 0 <= i < n ==> r[i] == SanitizeField(obj.fields[i], mask)
    decreases obj, 0, n
  {
    if n == 0 then []
    else
      SanitizeFields(obj, n - 1, mask) + [SanitizeField(obj.fields[n - 1], mask)]
  }

  /** The first `n` items of a sanitized list, all with the parent's hint. */
  function SanitizeItems(arr: Value, n: nat, keyHint: string, mask: string -> string): (r: seq<Value>)
    requires arr.JArray? && n <= |arr.items|
    ensures |r| == n
    ensures forall i :: 0 <= i < n ==> r[i] == Sanitize(arr.items[i], keyHint, mask)
    decreases arr, 0, n
  {
    if n == 0 then []
    else SanitizeItems(arr, n - 1, keyHint, mask) + [Sanitize(arr.items[n - 1], keyHint, mask)]
  }

  /** A string value under a key that names a secret never reaches the output. */
  lemma SecretFieldRedacted(v: Value, i: nat, keyHint: string, mask: string -> string)
    requires v.JObject? && i < |v.fields|
    requires HasSecretHint(Lower(v.fields[i].0)) && v.fields[i].1.JString?
    ensures Sanitize(v, keyHint, mask).fields[i] == (v.fields[i].0, JString(RedactedMarker))
  {
  }

  /** Under a hinted key, every string of a list (at any depth of lists) is
      replaced, since the hint is passed down. */
  lemma {:induction false} HintedListRedacted(v: Value, keyHint: string, mask: string -> string)
    requires HasSecretHint(keyHint) && v.JArray?
    ensures forall i :: 0 <= i < |v.items| && v.items[i].JString? ==>
      Sanitize(v, keyHint, mask).items[i] == JString(RedactedMarker)
  {
    forall i | 0 <= i < |v.items| && v.items[i].JString?
      ensures Sanitize(v, keyHint, mask).items[i] == JString(RedactedMarker)
    {
      assert Sanitize(v, keyHint, mask).items[i] == Sanitize(v.items[i], keyHint, mask);
    }
  }

  /** When masking is idempotent, so is sanitizing: the output of
      `write_json` is a fixpoint of the scrubbing. */
  lemma {:induction false} SanitizeIdempotent(v: Value, keyHint: string, mask: string -> string)
    requires MaskIdempotent(mask)
    ensures Sanitize(Sanitize(v, keyHint, mask), keyHint, mask) == Sanitize(v, keyHint, mask)
    decreases v
  {
    var r := Sanitize(v, keyHint, mask);
    match v
    case JObject(fields) =>
      var rr := Sanitize(r, keyHint, mask);
      assert |rr.fields| == |fields|;
      forall i | 0 <= i < |fields| ensures rr.fields[i] == r.fields[i] {
        var f := fields[i];
        var keyLower := Lower(f.0);
        assert r.fields[i] == SanitizeField(f, mask);
        assert rr.fields[i] == SanitizeField(r.fields[i], mask);
        if !(HasSecretHint(keyLower) && f.1.JString?) {
          SanitizeIdempotent(f.1, keyLower, mask);
        }
      }
      assert rr.fields == r.fields;
    case JArray(items) =>
      var rr := Sanitize(r, keyHint, mask);
      forall i | 0 <= i < |items| ensures rr.items[i] == r.items[i] {
        assert r.items[i] == Sanitize(items[i], keyHint, mask);
        SanitizeIdempotent(items[i], keyHint, mask);
      }
      assert rr.items == r.items;
    case JString(s) =>
    case _ =>
  }

  // ---------------------------------------------------------------------
  // normalize_text / is_exact_match
  // ---------------------------------------------------------------------

  /** `normalize_text(value)`: the stripped text of a string, None otherwise. */
  function NormalizeText(v: Value): (r: Option<string>)
    ensures r.Some? <==> v.JString?
    ensures r.Some? ==> r.value == Strip(v.s)
  {
    if v.JString? then Some(Strip(v.s)) else None
  }

  /** `is_exact_match(actual, expected)`. */
  predicate IsExactMatch(actual: Value, expected: string)
  {
    NormalizeText(actual) == Some(expected)
  }

  /** A reply matches exactly when it is a string equal to the expected one
      up to surrounding whitespace; a missing reply never matches. */
  lemma ExactMatchIff(actual: Value, expected: string)
    ensures IsExactMatch(actual, expected) <==> actual.JString? && Strip(actual.s) == expected
    ensures IsExactMatch(JNull, expected) == false
  {
  }

  /** A reply that is the expected text padded with whitespace matches. */
  lemma ExactMatchPadded(expected: string, before: string, after: string)
    requires expected != [] && !IsSpace(expected[0]) && !IsSpace(expected[|expected| - 1])
    requires AllSpace(before) && AllSpace(after)
    ensures IsExactMatch(JString(before + expected + after), expected)
  {
    StripPadded(before, expected, after);
  }

  // ---------------------------------------------------------------------
  // parse_jsonl
  // ---------------------------------------------------------------------

  datatype ParseError = ParseError(lineNumber: nat, error: string, preview: string)

  datatype Jsonl = Jsonl(events: seq<Value>, errors: seq<ParseError>)

  const PreviewLimit: nat := 200

  /** The error recorded for a line that parsed to a non-object. */
  function RootError(v: Value): string
  {
    "json root is " + PyTypeName(v) + ", expected object"
  }

  /** What `parse_jsonl` yields for the given lines, the last one having
      number `|lines|`. */
  function JsonlFrom(lines: seq<string>, loads: string -> Result<Value, string>): Jsonl
  {
    if lines == [] then Jsonl([], [])
    else
      var prev := JsonlFrom(lines[..|lines| - 1], loads);
      var stripped := Strip(lines[|lines| - 1]);
      if stripped == "" then prev
      else
        match loads(stripped)
        case Err(e) => Jsonl(prev.events, prev.errors + [ParseError(|lines|, e, Take(stripped, PreviewLimit))])
        case Ok(v) =>
          if v.JObject? then Jsonl(prev.events + [v], prev.errors)
          else Jsonl(prev.events, prev.errors + [ParseError(|lines|, RootError(v), Take(stripped, PreviewLimit))])
  }

  /** The lines of a text (`text.splitlines()` over `\n`). */
  function Lines(text: string): seq<string>
  {
    Split(text, "\n")
  }

  /** `parse_jsonl(text)`. */
  method ParseJsonl(text: string, loads: string -> Result<Value, string>)
    returns (events: seq<Value>, parseErrors: seq<ParseError>)
    ensures Jsonl(events, parseErrors) == JsonlFrom(Lines(text), loads)
  {
    var lines := Split(text, "\n");
    events, parseErrors := [], [];
    for i := 0 to |lines|
      invariant Jsonl(events, parseErrors) == JsonlFrom(lines[..i], loads)
    {
      assert lines[..i + 1][..i] == lines[..i];
      var lineNo := i + 1;
      var stripped := Strip(lines[i]);
      if stripped == "" {
        continue;
      }
      match loads(stripped)
      case Err(err) =>
        parseErrors := parseErrors + [ParseError(lineNo, err, Take(stripped, PreviewLimit))];
      case Ok(value) =>
        if value.JObject? {
          events := events + [value];
        } else {
          parseErrors := parseErrors + [ParseError(lineNo, RootError(value), Take(stripped, PreviewLimit))];
        }
    }
    assert lines[..|lines|] == lines;
  }

  /** Every non-blank line lands in exactly one of the two lists. */
  lemma {:induction false} JsonlAccountsForEveryLine(lines: seq<string>, loads: string -> Result<Value, string>)
    ensures |JsonlFrom(lines, loads).events| + |JsonlFrom(lines, loads).errors| == NonBlankCount(lines)
  {
    if lines != [] {
      JsonlAccountsForEveryLine(lines[..|lines| - 1], loads);
    }
  }

  /** The error record a non-blank line gets, if it gets one. */
  predicate ErrorOf(e: ParseError, lines: seq<string>, loads: string -> Result<Value, string>)
  {
    && 1 <= e.lineNumber <= |lines|
    && var stripped := Strip(lines[e.lineNumber - 1]);
    && stripped != ""
    && e.preview == Take(stripped, PreviewLimit)
    && match loads(stripped)
       case Err(x) => e.error == x
       case Ok(v) => !v.JObject? && e.error == RootError(v)
  }

  /** Events are the dicts some non-blank line parsed to; errors name the
      1-based number of a non-blank line that did not parse or parsed to a
      non-object, with a preview of at most 200 characters, in line order. */
  lemma {:induction false} JsonlContents(lines: seq<string>, loads: string -> Result<Value, string>)
    ensures forall e :: e in JsonlFrom(lines, loads).events ==>
      e.JObject? && exists k :: 0 <= k < |lines| && Strip(lines[k]) != "" && loads(Strip(lines[k])) == Ok(e)
    ensures forall i :: 0 <= i < |JsonlFrom(lines, loads).errors| ==>
      ErrorOf(JsonlFrom(lines, loads).errors[i], lines, loads) && |JsonlFrom(lines, loads).errors[i].preview| <= PreviewLimit
    ensures forall i, j :: 0 <= i < j < |JsonlFrom(lines, loads).errors| ==>
      JsonlFrom(lines, loads).errors[i].lineNumber < JsonlFrom(lines, loads).errors[j].lineNumber
  {
    if lines != [] {
      var init := lines[..|lines| - 1];
      JsonlContents(init, loads);
      var prev := JsonlFrom(init, loads);
      forall e | e in prev.events
        ensures exists k :: 0 <= k < |lines| && Strip(lines[k]) != "" && loads(Strip(lines[k])) == Ok(e)
      {
        var k :| 0 <= k < |init| && Strip(init[k]) != "" && loads(Strip(init[k])) == Ok(e);
        assert lines[k] == init[k];
      }
      forall i | 0 <= i < |prev.errors| ensures ErrorOf(prev.errors[i], lines, loads) {
        assert lines[prev.errors[i].lineNumber - 1] == init[prev.errors[i].lineNumber - 1];
      }
      var stripped := Strip(lines[|lines| - 1]);
      if stripped != "" {
        var k := |lines| - 1;
        assert Strip(lines[k]) == stripped;
      }
    }
  }

  /** JSON whose root is not an object is reported, not returned. */
  lemma NonObjectLine(line: string, loads: string -> Result<Value, string>, v: Value)
    requires Strip(line) != "" && loads(Strip(line)) == Ok(v) && !v.JObject?
    ensures JsonlFrom([line], loads).events == []
    ensures JsonlFrom([line], loads).errors == [ParseError(1, RootError(v), Take(Strip(line), PreviewLimit))]
  {
    assert [line][..0] == [];
  }

  /** An all-blank text yields neither events nor errors. */
  lemma {:induction false} JsonlBlank(lines: seq<string>, loads: string -> Result<Value, string>)
    requires forall k :: 0 <= k < |lines| ==> Strip(lines[k]) == ""
    ensures JsonlFrom(lines, loads) == Jsonl([], [])
  {
    if lines != [] {
      JsonlBlank(lines[..|lines| - 1], loads);
    }
  }

  // ---------------------------------------------------------------------
  // find_exec_thread_id
  // ---------------------------------------------------------------------

  predicate AllObjects(vs: seq<Value>)
  {
    forall i :: 0 <= i < |vs| ==> vs[i].JObject?
  }

  /** The first value `f` finds in `xs[k..]`, scanning from the front. */
  function FirstFoundFrom(xs: seq<Value>, k: nat, f: Value -> Option<string>): (r: Option<string>)
    requires k <= |xs|
    ensures r.Some? ==> exists i :: k <= i < |xs| && f(xs[i]) == r && forall j :: k <= j < i ==> f(xs[j]).None?
    ensures r.None? <==> forall i :: k <= i < |xs| ==> f(xs[i]).None?
    decreases |xs| - k
  {
    if k == |xs| then None
    else if f(xs[k]).Some? then f(xs[k])
    else FirstFoundFrom(xs, k + 1, f)
  }

  /** The first value `f` finds in the list, scanning from the front. */
  function FirstFound(xs: seq<Value>, f: Value -> Option<string>): (r: Option<string>)
    ensures r.Some? ==> exists i :: 0 <= i < |xs| && f(xs[i]) == r && forall j :: 0 <= j < i ==> f(xs[j]).None?
    ensures r.None? <==> forall i :: 0 <= i < |xs| ==> f(xs[i]).None?
  {
    FirstFoundFrom(xs, 0, f)
  }

  /** The last value `f` finds in `xs[..n]`, scanning from the back. */
  function LastFoundBefore(xs: seq<Value>, n: nat, f: Value -> Option<string>): (r: Option<string>)
    requires n <= |xs|
    ensures r.Some? ==> exists i :: 0 <= i < n && f(xs[i]) == r && forall j :: i < j < n ==> f(xs[j]).None?
    ensures r.None? <==> forall i :: 0 <= i < n ==> f(xs[i]).None?
  {
    if n == 0 then None
    else if f(xs[n - 1]).Some? then f(xs[n - 1])
    else LastFoundBefore(xs, n - 1, f)
  }

  /** The last value `f` finds in the list, scanning from the back. */
  function LastFound(xs: seq<Value>, f: Value -> Option<string>): (r: Option<string>)
    ensures r.Some? ==> exists i :: 0 <= i < |xs| && f(xs[i]) == r && forall j :: i < j < |xs| ==> f(xs[j]).None?
    ensures r.None? <==> forall i :: 0 <= i < |xs| ==> f(xs[i]).None?
  {
    LastFoundBefore(xs, |xs|, f)
  }

  /** The thread id a `thread.started` event carries: `thread_id` when
      truthy, else `threadId`, and only a non-empty string counts. */
  function ThreadIdOf(event: Value): (r: Option<string>)
    ensures r.Some? ==> r.value != ""
  {
    if !event.JObject? || Get(event, "type", JNull) != JString("thread.started") then None
    else
      var primary := Get(event, "thread_id", JNull);
      var id := if Truthy(primary) then primary else Get(event, "threadId", JNull);
      if id.JString? && id.s != "" then Some(id.s) else None
  }

  /** `find_exec_thread_id(events)`: the first event that carries a thread id. */
  function FindExecThreadId(events: seq<Value>): (r: Option<string>)
    requires AllObjects(events)
    ensures r.Some? ==> r.value != ""
    ensures r.Some? ==> exists i :: 0 <= i < |events| && ThreadIdOf(events[i]) == r && forall j :: 0 <= j < i ==> ThreadIdOf(events[j]).None?
    ensures r.None? <==> forall i :: 0 <= i < |events| ==> ThreadIdOf(events[i]).None?
  {
    FirstFound(events, ThreadIdOf)
  }

  /** A truthy `thread_id` that is not a string hides `threadId`. */
  lemma ThreadIdNoFallback(id: Value, other: string)
    requires Truthy(id) && !id.JString?
    ensures ThreadIdOf(JObject([("type", JString("thread.started")), ("thread_id", id), ("threadId", JString(other))])).None?
  {
    var ev := JObject([("type", JString("thread.started")), ("thread_id", id), ("threadId", JString(other))]);
    assert Lookup(ev.fields, "type") == Some(JString("thread.started"));
    assert Lookup(ev.fields, "thread_id") == Some(id) by {
      assert ev.fields[0].0 != "thread_id";
    }
  }

  // ---------------------------------------------------------------------
  // find_exec_final_message / parse_app_server_agent_text
  // ---------------------------------------------------------------------

  /** The text of an agent message item (type `agent_message` or
      `agentMessage`, with a string `text`). */
  function AgentText(item: Value): Option<string>
  {
    if !item.JObject? then None
    else
      var itemType := Get(item, "type", JNull);
      if itemType != JString("agent_message") && itemType != JString("agentMessage") then None
      else
        var text := Get(item, "text", JNull);
        if text.JString? then Some(text.s) else None
  }

  /** The agent text of an `exec --json` event: an `item.completed` event's `item`. */
  function ExecMessageOf(event: Value): Option<string>
  {
    if !event.JObject? || Get(event, "type", JNull) != JString("item.completed") then None
    else AgentText(Get(event, "item", JNull))
  }

  /** The agent text of an app-server message: method `item/completed` or
      `item.completed`, and its `params.item`. */
  function AppServerMessageOf(message: Value): Option<string>
  {
    if !message.JObject? then None
    else
      var m := Get(message, "method", JNull);
      if m != JString("item/completed") && m != JString("item.completed") then None
      else
        var params := Get(message, "params", JNull);
        if !params.JObject? then None
        else AgentText(Get(params, "item", JNull))
  }

  /** `find_exec_final_message(events)`: the last event that carries agent text. */
  function FindExecFinalMessage(events: seq<Value>): (r: Option<string>)
    requires AllObjects(events)
    ensures r.Some? ==> exists i :: 0 <= i < |events| && ExecMessageOf(events[i]) == r && forall j :: i < j < |events| ==> ExecMessageOf(events[j]).None?
    ensures r.None? <==> forall i :: 0 <= i < |events| ==> ExecMessageOf(events[i]).None?
  {
    LastFound(events, ExecMessageOf)
  }

  /** `parse_app_server_agent_text(messages)`: the last message that carries agent text. */
  function ParseAppServerAgentText(messages: seq<Value>): (r: Option<string>)
    requires AllObjects(messages)
    ensures r.Some? ==> exists i :: 0 <= i < |messages| && AppServerMessageOf(messages[i]) == r && forall j :: i < j < |messages| ==> AppServerMessageOf(messages[j]).None?
    ensures r.None? <==> forall i :: 0 <= i < |messages| ==> AppServerMessageOf(messages[i]).None?
  {
    LastFound(messages, AppServerMessageOf)
  }

  /** Both scans apply one rule to the item: an exec event and the app-server
      message wrapping the same item under `params` carry the same text. */
  lemma SameItemRule(item: Value)
    ensures ExecMessageOf(JObject([("type", JString("item.completed")), ("item", item)]))
         == AppServerMessageOf(JObject([("method", JString("item/completed")), ("params", JObject([("item", item)]))]))
         == AgentText(item)
  {
    var ev := JObject([("type", JString("item.completed")), ("item", item)]);
    var msg := JObject([("method", JString("item/completed")), ("params", JObject([("item", item)]))]);
    assert Lookup(ev.fields, "type") == Some(JString("item.completed"));
    assert Lookup(ev.fields, "item") == Some(item) by { assert ev.fields[0].0 != "item"; }
    assert Lookup(msg.fields, "method") == Some(JString("item/completed"));
    assert Lookup(msg.fields, "params") == Some(JObject([("item", item)])) by { assert msg.fields[0].0 != "params"; }
  }

  // ---------------------------------------------------------------------
  // make_exec_result
  // ---------------------------------------------------------------------

  /** What `run_command` returns: the command, its exit code, whether it
      timed out, its duration and its captured output. */
  datatype Run = Run(cmd: seq<string>, returncode: int, timedOut: bool, durationSec: real, stdout: string, stderr: string)

  datatype ExecResult = ExecResult(
    approach: string,
    status: string,
    command: seq<string>,
    returncode: int,
    timedOut: bool,
    durationSec: real,
    promptText: string,
    expectedReply: string,
    exactMatch: bool,
    threadId: Option<string>,
    finalMessage: Option<string>,
    eventCount: nat,
    parseErrorCount: nat,
    parseErrors: seq<ParseError>,
    stderrTail: string)

  const ErrorSampleLimit: nat := 5
  const StderrTailLimit: nat := 2000

  function OptionValue(o: Option<string>): Value
  {
    match o
    case Some(s) => JString(s)
    case None => JNull
  }

  lemma JsonlEventsAreObjects(lines: seq<string>, loads: string -> Result<Value, string>)
    ensures AllObjects(JsonlFrom(lines, loads).events)
  {
    JsonlContents(lines, loads);
    var events := JsonlFrom(lines, loads).events;
    forall i | 0 <= i < |events| ensures events[i].JObject? {
      assert events[i] in events;
    }
  }

  /** `make_exec_result(approach=…, prompt=…, expected=…, run=…)`. */
  function MakeExecResult(approach: string, prompt: string, expected: string, run: Run,
                          loads: string -> Result<Value, string>): (r: ExecResult)
  {
    var parsed := JsonlFrom(Lines(run.stdout), loads);
    JsonlEventsAreObjects(Lines(run.stdout), loads);
    var finalMessage := FindExecFinalMessage(parsed.events);
    var threadId := FindExecThreadId(parsed.events);
    var errors := parsed.errors;
    ExecResult(
      approach,
      if run.returncode == 0 && !run.timedOut then "ok" else "failed",
      run.cmd,
      run.returncode,
      run.timedOut,
      run.durationSec,
      prompt,
      expected,
      IsExactMatch(OptionValue(finalMessage), expected),
      threadId,
      finalMessage,
      |parsed.events|,
      |errors|,
      if |errors| <= ErrorSampleLimit then errors else errors[..ErrorSampleLimit],
      TakeLast(run.stderr, StderrTailLimit))
  }

  /** The run's status is `ok` exactly when it exited with code 0 and did
      not time out, and `failed` otherwise. */
  lemma ExecStatus(approach: string, prompt: string, expected: string, run: Run, loads: string -> Result<Value, string>)
    ensures var r := MakeExecResult(approach, prompt, expected, run, loads);
      && (r.status == "ok" <==> run.returncode == 0 && !run.timedOut)
      && (r.status == "ok" || r.status == "failed")
  {
  }

  /** Every non-blank stdout line is counted as an event or an error; at most
      five errors are kept, the first ones. */
  lemma ExecParseCounts(approach: string, prompt: string, expected: string, run: Run, loads: string -> Result<Value, string>)
    ensures var r := MakeExecResult(approach, prompt, expected, run, loads);
      var parsed := JsonlFrom(Lines(run.stdout), loads);
      && r.eventCount == |parsed.events|
      && r.parseErrorCount == |parsed.errors|
      && r.eventCount + r.parseErrorCount == NonBlankCount(Lines(run.stdout))
      && |r.parseErrors| == (if r.parseErrorCount <= ErrorSampleLimit then r.parseErrorCount else ErrorSampleLimit)
      && r.parseErrors == parsed.errors[..|r.parseErrors|]
  {
    JsonlAccountsForEveryLine(Lines(run.stdout), loads);
  }

  /** The kept stderr is its last 2000 characters, or all of it when shorter. */
  lemma ExecStderrTail(approach: string, prompt: string, expected: string, run: Run, loads: string -> Result<Value, string>)
    ensures var r := MakeExecResult(approach, prompt, expected, run, loads);
      && |r.stderrTail| <= StderrTailLimit && |r.stderrTail| <= |run.stderr|
      && r.stderrTail == run.stderr[|run.stderr| - |r.stderrTail|..]
      && (|run.stderr| <= StderrTailLimit ==> r.stderrTail == run.stderr)
      && (|run.stderr| > StderrTailLimit ==> |r.stderrTail| == StderrTailLimit)
  {
    var tail := TakeLast(run.stderr, StderrTailLimit);
    assert MakeExecResult(approach, prompt, expected, run, loads).stderrTail == tail;
  }

  /** The run matches exactly when its final agent message, stripped, is the
      expected reply; a run with no final message never matches. */
  lemma ExecExactMatch(approach: string, prompt: string, expected: string, run: Run, loads: string -> Result<Value, string>)
    ensures var r := MakeExecResult(approach, prompt, expected, run, loads);
      && (r.exactMatch <==> r.finalMessage.Some? && Strip(r.finalMessage.value) == expected)
      && (r.finalMessage.None? ==> !r.exactMatch)
  {
  }

  // ---------------------------------------------------------------------
  // pick_host_codex
  // ---------------------------------------------------------------------

  /** `str(Path(candidate).resolve())`, or the candidate itself when
      resolving raises `OSError` (`None`). */
  function Resolved(candidate: string, resolve: string -> Option<string>): string
  {
    match resolve(candidate)
    case Some(p) => p
    case None => candidate
  }

  /** The candidate lies outside the workspace once resolved. */
  predicate OutsideWorkspace(candidate: string, resolve: string -> Option<string>, workspaceRoot: string)
  {
    !StartsWith(Resolved(candidate, resolve), workspaceRoot + "/")
  }

  /** The first candidate outside the workspace, if any. */
  function FirstOutside(candidates: seq<string>, resolve: string -> Option<string>, workspaceRoot: string): (r: Option<nat>)
    ensures r.Some? ==> r.value < |candidates| && OutsideWorkspace(candidates[r.value], resolve, workspaceRoot)
    ensures r.Some? ==> forall j :: 0 <= j < r.value ==> !OutsideWorkspace(candidates[j], resolve, workspaceRoot)
    ensures r.None? ==> forall j :: 0 <= j < |candidates| ==> !OutsideWorkspace(candidates[j], resolve, workspaceRoot)
  {
    if candidates == [] then None
    else if OutsideWorkspace(candidates[0], resolve, workspaceRoot) then Some(0)
    else
      var rest := FirstOutside(candidates[1..], resolve, workspaceRoot);
      assert forall j :: 1 <= j < |candidates| ==> candidates[j] == candidates[1..][j - 1];
      match rest
      case None => None
      case Some(k) => Some(k + 1)
  }

  /** `pick_host_codex(candidates)`: the first candidate that does not
      resolve inside the workspace, else the first candidate, else None. */
  function PickHostCodex(candidates: seq<string>, resolve: string -> Option<string>, workspaceRoot: string): (r: Option<string>)
    ensures r.None? <==> candidates == []
    ensures r.Some? ==> r.value in candidates
    ensures (exists j :: 0 <= j < |candidates| && OutsideWorkspace(candidates[j], resolve, workspaceRoot)) ==>
      (exists i :: 0 <= i < |candidates| && r == Some(candidates[i]) && OutsideWorkspace(candidates[i], resolve, workspaceRoot) && forall j :: 0 <= j < i ==> !OutsideWorkspace(candidates[j], resolve, workspaceRoot))
    ensures candidates != [] && (forall j :: 0 <= j < |candidates| ==> !OutsideWorkspace(candidates[j], resolve, workspaceRoot)) ==>
      r == Some(candidates[0])
  {
    match FirstOutside(candidates, resolve, workspaceRoot)
    case Some(i) => Some(candidates[i])
    case None => if candidates != [] then Some(candidates[0]) else None
  }
}
