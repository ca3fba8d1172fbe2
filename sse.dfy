/** The event-stream decoder `parse_sse_events` (sse.py): a simplified reading
    of the WHATWG HTML event-stream format. Only `event: ` (with the space) and
    `data:`/`data: ` lines are recognised; there is no CRLF, `id:` or `retry:`
    handling, and a block with neither kind of line is dropped. */
module Sse {
  import opened Wrappers
  import opened Text
  import opened Json

  /** The `data` of a decoded event: `None`, the parsed JSON value, or the
      joined text unchanged when it is not JSON. */
  datatype Data = NoData | Parsed(value: Value) | Raw(text: string)

  /** One `{"event": ..., "data": ...}` record. */
  datatype Event = Event(event: string, data: Data)

  const BlockSeparator := "\n\n"
  const EventPrefix := "event: "

  /** The payload a line contributes, if it is a data line: `data: ` drops six
      characters, otherwise `data:` drops five. An `event: ` line is never a
      data line. */
  function DataLine(line: string): Option<string>
  {
    if StartsWith(line, EventPrefix) then None
    else if StartsWith(line, "data: ") then Some(line[6..])
    else if StartsWith(line, "data:") then Some(line[5..])
    else None
  }

  /** The event type after the given lines: reassigned on every `event: ` line. */
  function EventType(lines: seq<string>): string
  {
    if lines == [] then ""
    else
      var line := lines[|lines| - 1];
      if StartsWith(line, EventPrefix) then line[7..] else EventType(lines[..|lines| - 1])
  }

  /** The data payloads of the given lines, in order. */
  function DataLines(lines: seq<string>): seq<string>
  {
    if lines == [] then []
    else
      DataLines(lines[..|lines| - 1])
      + match DataLine(lines[|lines| - 1]) { case Some(d) => [d] case None => [] }
  }

  /** `None` for an empty payload, the parsed value if it is JSON, else the text. */
  function Payload(dataStr: string, loads: string -> Result<Value, string>): Data
  {
    if dataStr == "" then NoData
    else match loads(dataStr) {
      case Ok(v) => Parsed(v)
      case Err(_) => Raw(dataStr)
    }
  }

  /** The event one `\n\n`-separated block yields, if any. */
  function DecodeBlock(block: string, loads: string -> Result<Value, string>): Option<Event>
  {
    var b := Strip(block);
    if b == "" then None
    else
      var lines := Split(b, "\n");
      var eventType := EventType(lines);
      var dataLines := DataLines(lines);
      if eventType != "" || dataLines != [] then
        Some(Event(eventType, Payload(Join(dataLines, "\n"), loads)))
      else None
  }

  function DecodeBlocks(blocks: seq<string>, loads: string -> Result<Value, string>): seq<Event>
  {
    if blocks == [] then []
    else
      DecodeBlocks(blocks[..|blocks| - 1], loads)
      + match DecodeBlock(blocks[|blocks| - 1], loads) { case Some(e) => [e] case None => [] }
  }

  /** The events of a complete stream, block by block. */
  function Decode(raw: string, loads: string -> Result<Value, string>): seq<Event>
  {
    DecodeBlocks(Split(raw, BlockSeparator), loads)
  }

  /** `parse_sse_events(raw)`. */
  method ParseSseEvents(raw: string, loads: string -> Result<Value, string>) returns (events: seq<Event>)
    ensures events == Decode(raw, loads)
  {
    events := [];
    var blocks := Split(raw, BlockSeparator);
    for bi := 0 to |blocks|
      invariant events == DecodeBlocks(blocks[..bi], loads)
    {
      assert blocks[..bi + 1][..bi] == blocks[..bi];
      var block := Strip(blocks[bi]);
      if block != "" {
        var eventType := "";
        var dataLines: seq<string> := [];
        var lines := Split(block, "\n");
        for li := 0 to |lines|
          invariant eventType == EventType(lines[..li])
          invariant dataLines == DataLines(lines[..li])
        {
          assert lines[..li + 1][..li] == lines[..li];
          var line := lines[li];
          if StartsWith(line, EventPrefix) {
            eventType := line[7..];
          } else if StartsWith(line, "data: ") {
            dataLines := dataLines + [line[6..]];
          } else if StartsWith(line, "data:") {
            dataLines := dataLines + [line[5..]];
          }
        }
        assert lines[..|lines|] == lines;
        if eventType != "" || dataLines != [] {
          var dataStr := Join(dataLines, "\n");
          var data := NoData;
          if dataStr != "" {
            match loads(dataStr) {
              case Ok(v) => data := Parsed(v);
              case Err(_) => data := Raw(dataStr);
            }
          }
          events := events + [Event(eventType, data)];
        }
      }
    }
    assert blocks[..|blocks|] == blocks;
  }

  // ---------------------------------------------------------------------
  // Properties
  // ---------------------------------------------------------------------

  /** Decoding is compositional: the events of consecutive blocks are the
      events of the first blocks followed by those of the rest. */
  lemma {:induction false} DecodeBlocksAppend(a: seq<string>, b: seq<string>, loads: string -> Result<Value, string>)
    ensures DecodeBlocks(a + b, loads) == DecodeBlocks(a, loads) + DecodeBlocks(b, loads)
    decreases |b|
  {
    if b == [] {
      assert a + b == a;
    } else {
      var b' := b[..|b| - 1];
      DecodeBlocksAppend(a, b', loads);
      assert (a + b)[..|a + b| - 1] == a + b';
      assert (a + b)[|a + b| - 1] == b[|b| - 1];
    }
  }

  /** At most one event per block. */
  lemma {:induction false} DecodeBlocksLength(blocks: seq<string>, loads: string -> Result<Value, string>)
    ensures |DecodeBlocks(blocks, loads)| <= |blocks|
  {
    if blocks != [] {
      DecodeBlocksLength(blocks[..|blocks| - 1], loads);
    }
  }

  lemma DecodeAtMostOnePerBlock(raw: string, loads: string -> Result<Value, string>)
    ensures |Decode(raw, loads)| <= |Split(raw, BlockSeparator)|
  {
    DecodeBlocksLength(Split(raw, BlockSeparator), loads);
  }

  lemma {:induction false} DecodeBlocksNone(blocks: seq<string>, loads: string -> Result<Value, string>)
    requires forall i :: 0 <= i < |blocks| ==> DecodeBlock(blocks[i], loads).None?
    ensures DecodeBlocks(blocks, loads) == []
  {
    if blocks != [] {
      DecodeBlocksNone(blocks[..|blocks| - 1], loads);
    }
  }

  /** Empty or whitespace-only input yields no events. */
  lemma DecodeBlank(raw: string, loads: string -> Result<Value, string>)
    requires AllSpace(raw)
    ensures Decode(raw, loads) == []
  {
    var blocks := Split(raw, BlockSeparator);
    SplitAllSpace(raw, BlockSeparator);
    forall i | 0 <= i < |blocks| ensures DecodeBlock(blocks[i], loads).None? {
      assert blocks[i] in blocks;
      StripProps(blocks[i]);
    }
    DecodeBlocksNone(blocks, loads);
  }

  /** Input with no blank-line separator is one block: a last record needs no terminator. */
  lemma DecodeSingleBlock(raw: string, loads: string -> Result<Value, string>)
    requires !Contains(raw, BlockSeparator)
    ensures Decode(raw, loads) == match DecodeBlock(raw, loads) { case Some(e) => [e] case None => [] }
  {
    SplitNoSep(raw, BlockSeparator);
    assert [raw][..0] == [];
  }

  /** The event type is the text after `event: ` on the last such line, or `""`. */
  lemma {:induction false} EventTypeIsLast(lines: seq<string>, j: int)
    requires -1 <= j < |lines|
    requires j >= 0 ==> StartsWith(lines[j], EventPrefix)
    requires forall k :: j < k < |lines| ==> !StartsWith(lines[k], EventPrefix)
    ensures EventType(lines) == if j >= 0 then lines[j][7..] else ""
  {
    if lines != [] && j < |lines| - 1 {
      EventTypeIsLast(lines[..|lines| - 1], j);
    }
  }

  /** Data lines are collected in order: the payloads of consecutive runs of lines concatenate. */
  lemma {:induction false} DataLinesAppend(a: seq<string>, b: seq<string>)
    ensures DataLines(a + b) == DataLines(a) + DataLines(b)
    decreases |b|
  {
    if b == [] {
      assert a + b == a;
    } else {
      var b' := b[..|b| - 1];
      DataLinesAppend(a, b');
      assert (a + b)[..|a + b| - 1] == a + b';
      assert (a + b)[|a + b| - 1] == b[|b| - 1];
    }
  }

  lemma {:induction false} DataLinesEmpty(lines: seq<string>)
    ensures DataLines(lines) == [] <==> forall k :: 0 <= k < |lines| ==> DataLine(lines[k]).None?
  {
    if lines != [] {
      DataLinesEmpty(lines[..|lines| - 1]);
    }
  }

  /** A non-blank block yields an event exactly when its last `event: ` line
      gives a non-empty type or it has at least one data line; the payload is
      the data lines joined with newlines. */
  lemma DecodeBlockIff(block: string, loads: string -> Result<Value, string>)
    ensures var lines := Split(Strip(block), "\n");
      DecodeBlock(block, loads).Some? <==>
        !AllSpace(block)
        && (EventType(lines) != "" || exists k :: 0 <= k < |lines| && DataLine(lines[k]).Some?)
    ensures var lines := Split(Strip(block), "\n");
      DecodeBlock(block, loads).Some? ==>
        DecodeBlock(block, loads).value == Event(EventType(lines), Payload(Join(DataLines(lines), "\n"), loads))
  {
    StripProps(block);
    DataLinesEmpty(Split(Strip(block), "\n"));
  }

  /** The payload is `None` exactly when the joined data is empty, the parsed
      value when it parses, and the joined text otherwise. */
  lemma PayloadCases(dataStr: string, loads: string -> Result<Value, string>)
    ensures Payload(dataStr, loads).NoData? <==> dataStr == ""
    ensures Payload(dataStr, loads).Parsed? <==> dataStr != "" && loads(dataStr).Ok?
    ensures Payload(dataStr, loads).Parsed? ==> loads(dataStr) == Ok(Payload(dataStr, loads).value)
    ensures Payload(dataStr, loads).Raw? ==> Payload(dataStr, loads).text == dataStr
  {
  }

  lemma {:induction false} NoCharNoContains(s: string, t: string)
    requires |t| > 0 && forall i :: 0 <= i < |s| ==> s[i] != t[0]
    ensures !Contains(s, t)
    decreases |s|
  {
    if |s| > 0 {
      NoCharNoContains(s[1..], t);
      if |t| <= |s| { assert s[..|t|][0] != t[0]; }
    }
  }

  /** A lone `data: p` record with no terminator decodes to one untyped event. */
  lemma SingleDataRecord(p: string, loads: string -> Result<Value, string>)
    requires p != [] && forall i :: 0 <= i < |p| ==> !IsSpace(p[i])
    ensures Decode("data: " + p, loads) == [Event("", Payload(p, loads))]
  {
    var raw := "data: " + p;
    forall i | 0 <= i < |raw| ensures raw[i] != '\n' {
      if i >= 6 { assert raw[i] == p[i - 6]; }
    }
    NoCharNoContains(raw, BlockSeparator);
    NoCharNoContains(raw, "\n");
    assert raw[|raw| - 1] == p[|p| - 1];
    assert RStrip(raw) == raw;
    assert Strip(raw) == raw;
    SplitNoSep(raw, "\n");
    assert raw[..6] == "data: " && raw[6..] == p;
    assert !StartsWith(raw, EventPrefix) by { assert raw[0] != EventPrefix[0]; }
    assert DataLine(raw) == Some(p);
    assert [raw][..0] == [];
    assert EventType([raw]) == "";
    assert DataLines([raw]) == [p];
    assert Join([p], "\n") == p;
    assert DecodeBlock(raw, loads) == Some(Event("", Payload(p, loads)));
    DecodeSingleBlock(raw, loads);
  }
}
