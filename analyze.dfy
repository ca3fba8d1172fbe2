/** The traffic analyzer (analyze.py): loading captured JSON lines, the
    payload-structure census, the aggregate statistics, header redaction and
    the per-exchange conversation log. */
module Analyze {
  import opened Wrappers
  import opened Text
  import opened Json
  import opened Traffic
  import Counter

  // ---------------------------------------------------------------------
  // Loading
  // ---------------------------------------------------------------------

  function Warning(lineNumber: nat, error: string): string
  {
    "WARNING: skipping malformed line " + NatStr(lineNumber) + ": " + error
  }

  datatype Loaded = Loaded(entries: seq<Value>, warnings: seq<string>)

  /** What `load_entries` yields for the lines of a file: the parsed values
      of the non-blank lines in order, and one warning per line that does not
      parse, naming its 1-based line number. */
  function LoadFrom(lines: seq<string>, loads: string -> Result<Value, string>): Loaded
  {
    if lines == [] then Loaded([], [])
    else
      var prev := LoadFrom(lines[..|lines| - 1], loads);
      var line := Strip(lines[|lines| - 1]);
      if line == "" then prev
      else
        match loads(line)
        case Ok(v) => Loaded(prev.entries + [v], prev.warnings)
        case Err(e) => Loaded(prev.entries, prev.warnings + [Warning(|lines|, e)])
  }

  /** `load_entries(path)` over the file's lines; the warnings it prints are
      returned instead. */
  method LoadEntries(lines: seq<string>, loads: string -> Result<Value, string>)
    returns (entries: seq<Value>, warnings: seq<string>)
    ensures Loaded(entries, warnings) == LoadFrom(lines, loads)
  {
    entries, warnings := [], [];
    for i := 0 to |lines|
      invariant Loaded(entries, warnings) == LoadFrom(lines[..i], loads)
    {
      assert lines[..i + 1][..i] == lines[..i];
      var line := Strip(lines[i]);
      if line == "" {
        continue;
      }
      match loads(line)
      case Ok(v) =>
        entries := entries + [v];
      case Err(e) =>
        warnings := warnings + [Warning(i + 1, e)];
    }
    assert lines[..|lines|] == lines;
  }

  /** Every non-blank line is either loaded or warned about, never both. */
  lemma {:induction false} LoadAccountsForEveryLine(lines: seq<string>, loads: string -> Result<Value, string>)
    ensures |LoadFrom(lines, loads).entries| + |LoadFrom(lines, loads).warnings| == NonBlankCount(lines)
  {
    if lines != [] {
      LoadAccountsForEveryLine(lines[..|lines| - 1], loads);
    }
  }

  /** Each warning names a non-blank line, by its 1-based number, that failed to parse. */
  lemma {:induction false} WarningsNameBadLines(lines: seq<string>, loads: string -> Result<Value, string>)
    ensures forall w :: w in LoadFrom(lines, loads).warnings ==> exists n, e ::
      1 <= n <= |lines| && Strip(lines[n - 1]) != "" && loads(Strip(lines[n - 1])) == Err(e) && w == Warning(n, e)
  {
    if lines != [] {
      var init := lines[..|lines| - 1];
      WarningsNameBadLines(init, loads);
      forall w | w in LoadFrom(lines, loads).warnings
        ensures exists n, e ::
          1 <= n <= |lines| && Strip(lines[n - 1]) != "" && loads(Strip(lines[n - 1])) == Err(e) && w == Warning(n, e)
      {
        if w in LoadFrom(init, loads).warnings {
          var n, e :| 1 <= n <= |init| && Strip(init[n - 1]) != "" && loads(Strip(init[n - 1])) == Err(e)
            && w == Warning(n, e);
          assert init[n - 1] == lines[n - 1];
        } else {
          var line := Strip(lines[|lines| - 1]);
          assert loads(line).Err? && w == Warning(|lines|, loads(line).error);
        }
      }
    }
  }

  /** Loading the lines of two files one after the other gives the entries of both, in order. */
  lemma {:induction false} LoadEntriesAppend(a: seq<string>, b: seq<string>, loads: string -> Result<Value, string>)
    ensures LoadFrom(a + b, loads).entries == LoadFrom(a, loads).entries + LoadFrom(b, loads).entries
    decreases |b|
  {
    if b == [] {
      assert a + b == a;
    } else {
      var b' := b[..|b| - 1];
      assert (a + b)[..|a + b| - 1] == a + b';
      assert (a + b)[|a + b| - 1] == b[|b| - 1];
      LoadEntriesAppend(a, b', loads);
    }
  }

  // ---------------------------------------------------------------------
  // Payload structure
  // ---------------------------------------------------------------------

  /** `type_name(v)`: the label of a JSON value's kind (booleans are never "int"). */
  function TypeName(v: Value): (r: string)
    ensures r in {"null", "bool", "int", "float", "string", "array", "object"}
  {
    match v
    case JNull => "null"
    case JBool(_) => "bool"
    case JInt(_) => "int"
    case JFloat(_) => "float"
    case JString(_) => "string"
    case JArray(_) => "array"
    case JObject(_) => "object"
  }

  /** Two values share a label exactly when they are of the same kind. */
  lemma TypeNameIff(a: Value, b: Value)
    ensures TypeName(a) == TypeName(b) <==>
      && (a.JNull? <==> b.JNull?) && (a.JBool? <==> b.JBool?) && (a.JInt? <==> b.JInt?)
      && (a.JFloat? <==> b.JFloat?) && (a.JString? <==> b.JString?) && (a.JArray? <==> b.JArray?)
  {
  }

  /** `f"{prefix}.{k}" if prefix else k`. */
  function KeyPath(prefix: string, key: string): string
  {
    if prefix != "" then prefix + "." + key else key
  }

  /** `extract_keys(obj, prefix)`: one `(path, type)` pair per dict key, each
      followed by the pairs of its value; a non-empty list contributes the
      pairs of its first element only, under `prefix[]`. */
  function ExtractKeys(obj: Value, prefix: string): seq<(string, string)>
    decreases obj, 1, 0
  {
    match obj
    case JObject(fields) => FieldKeys(obj, |fields|, prefix)
    case JArray(items) => if items == [] then [] else ExtractKeys(items[0], prefix + "[]")
    case _ => []
  }

  /** The pairs of the first `n` fields of a dict. */
  function FieldKeys(obj: Value, n: nat, prefix: string): seq<(string, string)>
    requires obj.JObject? && n <= |obj.fields|
    decreases obj, 0, n
  {
    if n == 0 then []
    else
      var field := obj.fields[n - 1];
      var full := KeyPath(prefix, field.0);
      FieldKeys(obj, n - 1, prefix) + [(full, TypeName(field.1))] + ExtractKeys(field.1, full)
  }

  /** Scalars and empty lists contribute nothing; a non-empty list is its
      first element under `prefix[]`. */
  lemma ExtractKeysNonDict(obj: Value, prefix: string)
    requires !obj.JObject?
    ensures !obj.JArray? || obj.items == [] ==> ExtractKeys(obj, prefix) == []
    ensures obj.JArray? && obj.items != [] ==> ExtractKeys(obj, prefix) == ExtractKeys(obj.items[0], prefix + "[]")
  {
  }

  lemma {:induction false} FieldKeysHasField(obj: Value, n: nat, j: nat, prefix: string)
    requires obj.JObject? && j < n <= |obj.fields|
    ensures (KeyPath(prefix, obj.fields[j].0), TypeName(obj.fields[j].1)) in FieldKeys(obj, n, prefix)
    decreases n
  {
    var field := obj.fields[n - 1];
    var full := KeyPath(prefix, field.0);
    var prev := FieldKeys(obj, n - 1, prefix);
    assert FieldKeys(obj, n, prefix) == prev + [(full, TypeName(field.1))] + ExtractKeys(field.1, full);
    if j < n - 1 {
      FieldKeysHasField(obj, n - 1, j, prefix);
    }
  }

  /** Every key of a dict is reported with its value's type label. */
  lemma ExtractKeysHasField(obj: Value, j: nat, prefix: string)
    requires obj.JObject? && j < |obj.fields|
    ensures (KeyPath(prefix, obj.fields[j].0), TypeName(obj.fields[j].1)) in ExtractKeys(obj, prefix)
  {
    FieldKeysHasField(obj, |obj.fields|, j, prefix);
  }

  lemma KeyPathExtends(prefix: string, key: string)
    requires prefix != ""
    ensures StartsWith(KeyPath(prefix, key), prefix) && KeyPath(prefix, key) != ""
  {
    assert KeyPath(prefix, key)[..|prefix|] == prefix;
  }

  /** Every path reported under a non-empty prefix extends that prefix. */
  lemma {:induction false} ExtractKeysUnderPrefix(obj: Value, prefix: string)
    requires prefix != ""
    ensures forall i :: 0 <= i < |ExtractKeys(obj, prefix)| ==> StartsWith(ExtractKeys(obj, prefix)[i].0, prefix)
    decreases obj, 1, 0
  {
    match obj
    case JObject(fields) => FieldKeysUnderPrefix(obj, |fields|, prefix);
    case JArray(items) =>
      if items != [] {
        var p := prefix + "[]";
        assert p[..|prefix|] == prefix;
        ExtractKeysUnderPrefix(items[0], p);
        forall i | 0 <= i < |ExtractKeys(obj, prefix)| ensures StartsWith(ExtractKeys(obj, prefix)[i].0, prefix) {
          StartsWithTrans(ExtractKeys(obj, prefix)[i].0, p, prefix);
        }
      }
    case _ =>
  }

  lemma {:induction false} FieldKeysUnderPrefix(obj: Value, n: nat, prefix: string)
    requires prefix != "" && obj.JObject? && n <= |obj.fields|
    ensures forall i :: 0 <= i < |FieldKeys(obj, n, prefix)| ==> StartsWith(FieldKeys(obj, n, prefix)[i].0, prefix)
    decreases obj, 0, n
  {
    if n > 0 {
      var field := obj.fields[n - 1];
      var full := KeyPath(prefix, field.0);
      var prev := FieldKeys(obj, n - 1, prefix);
      var nested := ExtractKeys(field.1, full);
      FieldKeysUnderPrefix(obj, n - 1, prefix);
      KeyPathExtends(prefix, field.0);
      ExtractKeysUnderPrefix(field.1, full);
      var r := FieldKeys(obj, n, prefix);
      assert r == prev + [(full, TypeName(field.1))] + nested;
      forall i | 0 <= i < |r| ensures StartsWith(r[i].0, prefix) {
        if i < |prev| {
          assert r[i] == prev[i];
        } else if i == |prev| {
          assert r[i].0 == full;
        } else {
          assert r[i] == nested[i - |prev| - 1];
          StartsWithTrans(r[i].0, full, prefix);
        }
      }
    }
  }

  // ---------------------------------------------------------------------
  // Statistics
  // ---------------------------------------------------------------------

  /** What `analyze` needs of an entry so as not to raise: dict request and
      response, a string URL and method, and a number for a truthy timestamp. */
  predicate StatsShaped(entry: Value)
  {
    && EntryShaped(entry)
    && Get(Request(entry), "url", JString("")).JString?
    && Get(Request(entry), "method", JString("?")).JString?
    && (var ts := Get(entry, "timestamp", JNull); Truthy(ts) ==> IsNumber(ts))
  }

  predicate AllStatsShaped(entries: seq<Value>)
  {
    forall i :: 0 <= i < |entries| ==> StatsShaped(entries[i])
  }

  /** The method an entry is counted under; a missing method counts as `?`. */
  function MethodOf(entry: Value): (r: string)
    requires StatsShaped(entry)
    ensures !HasKey(Request(entry), "method") ==> r == "?"
  {
    Get(Request(entry), "method", JString("?")).s
  }

  /** The endpoint an entry is counted under: its URL path, or `/` when that is empty. */
  function EndpointOf(entry: Value, py: Foreign): (r: string)
    requires StatsShaped(entry)
    ensures r != ""
    ensures py.urlPath(Get(Request(entry), "url", JString("")).s) != "" ==> r == py.urlPath(Get(Request(entry), "url", JString("")).s)
  {
    var path := py.urlPath(Get(Request(entry), "url", JString("")).s);
    if path != "" then path else "/"
  }

  function StatusOf(entry: Value): Value
    requires EntryShaped(entry)
  {
    Get(Response(entry), "status_code", JNull)
  }

  function Timestamp(entry: Value): Value
    requires entry.JObject?
  {
    Get(entry, "timestamp", JNull)
  }

  function RequestBody(entry: Value): Value
    requires EntryShaped(entry)
  {
    Get(Request(entry), "body", JNull)
  }

  function ResponseBody(entry: Value): Value
    requires EntryShaped(entry)
  {
    Get(Response(entry), "body", JNull)
  }

  /** The size a body adds to the payload totals: the UTF-8 length of a
      string, the length of the JSON text of anything else but `None`. */
  function BodyBytes(body: Value, py: Foreign): nat
  {
    match body
    case JNull => 0
    case JString(s) => Utf8Len(s)
    case _ => |py.dumps(body)|
  }

  /** The key census of a body: only dict bodies are looked into. */
  function BodyPairs(body: Value): seq<(string, string)>
  {
    if body.JObject? then ExtractKeys(body, "") else []
  }

  /** A `defaultdict(set)` keyed by string. */
  type SetMap = map<string, set<string>>

  function SetAt(m: SetMap, k: string): set<string>
  {
    if k in m then m[k] else {}
  }

  /** `m[k].add(v)`. */
  function AddTo(m: SetMap, k: string, v: string): SetMap
  {
    m[k := SetAt(m, k) + {v}]
  }

  /** `for k, v in pairs: m[k].add(v)`. */
  function AddAll(m: SetMap, pairs: seq<(string, string)>): SetMap
  {
    if pairs == [] then m
    else AddTo(AddAll(m, pairs[..|pairs| - 1]), pairs[|pairs| - 1].0, pairs[|pairs| - 1].1)
  }

  /** The running state of the loop in `analyze`. */
  datatype Acc = Acc(
    endpointCounts: Counter.Counts<string>,
    methodCounts: Counter.Counts<string>,
    statusCounts: Counter.Counts<string>,
    requestKeyCounts: Counter.Counts<string>,
    responseKeyCounts: Counter.Counts<string>,
    requestKeyTypes: SetMap,
    responseKeyTypes: SetMap,
    endpointMethods: SetMap,
    timestamps: seq<real>,
    totalReqBytes: nat,
    totalRespBytes: nat)

  const EmptyAcc := Acc([], [], [], [], [], map[], map[], map[], [], 0, 0)

  /** One iteration of the loop: the entry's contribution to every tally. */
  function Step(acc: Acc, entry: Value, py: Foreign): Acc
    requires StatsShaped(entry)
  {
    var endpoint := EndpointOf(entry, py);
    var status := StatusOf(entry);
    var ts := Timestamp(entry);
    var reqBody := RequestBody(entry);
    var respBody := ResponseBody(entry);
    Acc(
      Counter.Inc(acc.endpointCounts, endpoint),
      Counter.Inc(acc.methodCounts, MethodOf(entry)),
      if status.JNull? then acc.statusCounts else Counter.Inc(acc.statusCounts, Show(status, py)),
      Counter.TallyInto(acc.requestKeyCounts, Counter.Keys(BodyPairs(reqBody))),
      Counter.TallyInto(acc.responseKeyCounts, Counter.Keys(BodyPairs(respBody))),
      AddAll(acc.requestKeyTypes, BodyPairs(reqBody)),
      AddAll(acc.responseKeyTypes, BodyPairs(respBody)),
      AddTo(acc.endpointMethods, endpoint, MethodOf(entry)),
      if Truthy(ts) then acc.timestamps + [NumberValue(ts)] else acc.timestamps,
      acc.totalReqBytes + BodyBytes(reqBody, py),
      acc.totalRespBytes + BodyBytes(respBody, py))
  }

  function Accumulate(entries: seq<Value>, py: Foreign): Acc
    requires AllStatsShaped(entries)
  {
    if entries == [] then EmptyAcc else Step(Accumulate(entries[..|entries| - 1], py), entries[|entries| - 1], py)
  }

  function Max(xs: seq<real>): (r: real)
    requires |xs| > 0
    ensures r in xs && forall i :: 0 <= i < |xs| ==> xs[i] <= r
  {
    if |xs| == 1 then xs[0]
    else
      var m := Max(xs[..|xs| - 1]);
      assert forall i :: 0 <= i < |xs| - 1 ==> xs[..|xs| - 1][i] == xs[i];
      if xs[|xs| - 1] > m then xs[|xs| - 1] else m
  }

  function Min(xs: seq<real>): (r: real)
    requires |xs| > 0
    ensures r in xs && forall i :: 0 <= i < |xs| ==> r <= xs[i]
  {
    if |xs| == 1 then xs[0]
    else
      var m := Min(xs[..|xs| - 1]);
      assert forall i :: 0 <= i < |xs| - 1 ==> xs[..|xs| - 1][i] == xs[i];
      if xs[|xs| - 1] < m then xs[|xs| - 1] else m
  }

  /** The capture duration: latest minus earliest timestamp when there are
      at least two, else 0; never negative. With two or more it is the
      difference of two of the timestamps and bounds every such difference,
      so it is exactly the largest one. */
  function Duration(timestamps: seq<real>): (r: real)
    ensures r >= 0.0
    ensures |timestamps| >= 2 ==> forall i, j :: 0 <= i < |timestamps| && 0 <= j < |timestamps| ==> timestamps[i] - timestamps[j] <= r
    ensures |timestamps| >= 2 ==> exists i, j :: 0 <= i < |timestamps| && 0 <= j < |timestamps| && r == timestamps[i] - timestamps[j]
    ensures |timestamps| < 2 ==> r == 0.0
  {
    if |timestamps| >= 2 then
      var hi, lo := Max(timestamps), Min(timestamps);
      var i :| 0 <= i < |timestamps| && timestamps[i] == hi;
      var j :| 0 <= j < |timestamps| && timestamps[j] == lo;
      assert hi - lo == timestamps[i] - timestamps[j];
      hi - lo
    else 0.0
  }

  /** The dict `analyze` returns. */
  datatype Stats = Stats(
    totalRequests: nat,
    durationSeconds: real,
    endpointCounts: Counter.Counts<string>,
    methodCounts: Counter.Counts<string>,
    statusCounts: Counter.Counts<string>,
    endpointMethods: SetMap,
    requestKeyCounts: Counter.Counts<string>,
    responseKeyCounts: Counter.Counts<string>,
    requestKeyTypes: SetMap,
    responseKeyTypes: SetMap,
    totalReqBytes: nat,
    totalRespBytes: nat)

  const KeyCountLimit: nat := 30

  function Finish(acc: Acc, total: nat): Stats
  {
    Stats(total, Duration(acc.timestamps),
      Counter.MostCommon(acc.endpointCounts, None),
      Counter.MostCommon(acc.methodCounts, None),
      Counter.MostCommon(acc.statusCounts, None),
      acc.endpointMethods,
      Counter.MostCommon(acc.requestKeyCounts, Some(KeyCountLimit)),
      Counter.MostCommon(acc.responseKeyCounts, Some(KeyCountLimit)),
      acc.requestKeyTypes, acc.responseKeyTypes,
      acc.totalReqBytes, acc.totalRespBytes)
  }

  function Statistics(entries: seq<Value>, py: Foreign): Stats
    requires AllStatsShaped(entries)
  {
    Finish(Accumulate(entries, py), |entries|)
  }

  /** The inner census loop: count each path and record its type label. */
  method CountKeys(counts: Counter.Counts<string>, types: SetMap, pairs: seq<(string, string)>)
    returns (counts': Counter.Counts<string>, types': SetMap)
    ensures counts' == Counter.TallyInto(counts, Counter.Keys(pairs))
    ensures types' == AddAll(types, pairs)
  {
    counts', types' := counts, types;
    for j := 0 to |pairs|
      invariant counts' == Counter.TallyInto(counts, Counter.Keys(pairs[..j]))
      invariant types' == AddAll(types, pairs[..j])
    {
      assert pairs[..j + 1][..j] == pairs[..j];
      assert Counter.Keys(pairs[..j + 1])[..j] == Counter.Keys(pairs[..j]);
      var key, dtype := pairs[j].0, pairs[j].1;
      counts' := Counter.Inc(counts', key);
      types' := AddTo(types', key, dtype);
    }
    assert pairs[..|pairs|] == pairs;
  }

  /** The part of the loop that the source repeats for the request body and
      the response body: the key census of a dict body, and its size. */
  method CensusBody(counts: Counter.Counts<string>, types: SetMap, totalBytes: nat, body: Value, py: Foreign)
    returns (counts': Counter.Counts<string>, types': SetMap, totalBytes': nat)
    ensures counts' == Counter.TallyInto(counts, Counter.Keys(BodyPairs(body)))
    ensures types' == AddAll(types, BodyPairs(body))
    ensures totalBytes' == totalBytes + BodyBytes(body, py)
  {
    counts', types' := counts, types;
    if body.JObject? {
      counts', types' := CountKeys(counts, types, ExtractKeys(body, ""));
    }
    if body.JString? {
      totalBytes' := totalBytes + Utf8Len(body.s);
    } else if !body.JNull? {
      totalBytes' := totalBytes + |py.dumps(body)|;
    } else {
      totalBytes' := totalBytes;
    }
  }

  /** What one entry adds to the counters, sets, timestamps and byte totals
      in `analyze`'s loop. */
  method CountEntry(acc: Acc, entry: Value, py: Foreign) returns (acc': Acc)
    requires StatsShaped(entry)
    ensures acc' == Step(acc, entry, py)
  {
    var req := Request(entry);
    var resp := Response(entry);
    var url := Get(req, "url", JString("")).s;
    var httpMethod := Get(req, "method", JString("?")).s;
    var status := Get(resp, "status_code", JNull);
    var ts := Get(entry, "timestamp", JNull);

    var path := py.urlPath(url);
    var endpoint := if path != "" then path else "/";
    var endpointCounts := Counter.Inc(acc.endpointCounts, endpoint);
    var methodCounts := Counter.Inc(acc.methodCounts, httpMethod);
    var endpointMethods := AddTo(acc.endpointMethods, endpoint, httpMethod);
    var statusCounts := acc.statusCounts;
    if !status.JNull? {
      statusCounts := Counter.Inc(statusCounts, Show(status, py));
    }
    var timestamps := acc.timestamps;
    if Truthy(ts) {
      timestamps := timestamps + [NumberValue(ts)];
    }

    var reqBody := Get(req, "body", JNull);
    var requestKeyCounts, requestKeyTypes, totalReqBytes :=
      CensusBody(acc.requestKeyCounts, acc.requestKeyTypes, acc.totalReqBytes, reqBody, py);
    var respBody := Get(resp, "body", JNull);
    var responseKeyCounts, responseKeyTypes, totalRespBytes :=
      CensusBody(acc.responseKeyCounts, acc.responseKeyTypes, acc.totalRespBytes, respBody, py);
    assert endpoint == EndpointOf(entry, py) && httpMethod == MethodOf(entry);
    assert status == StatusOf(entry) && ts == Timestamp(entry);
    assert reqBody == RequestBody(entry) && respBody == ResponseBody(entry);
    ghost var want := Step(acc, entry, py);
    assert want.endpointCounts == endpointCounts;
    assert want.methodCounts == methodCounts;
    assert want.statusCounts == statusCounts;
    assert want.requestKeyCounts == requestKeyCounts;
    assert want.responseKeyCounts == responseKeyCounts;
    assert want.requestKeyTypes == requestKeyTypes;
    assert want.responseKeyTypes == responseKeyTypes;
    assert want.endpointMethods == endpointMethods;
    assert want.timestamps == timestamps;
    assert want.totalReqBytes == totalReqBytes;
    assert want.totalRespBytes == totalRespBytes;
    acc' := Acc(endpointCounts, methodCounts, statusCounts, requestKeyCounts, responseKeyCounts,
                requestKeyTypes, responseKeyTypes, endpointMethods, timestamps, totalReqBytes, totalRespBytes);
  }

  /** `analyze(entries)`. */
  method AnalyzeEntries(entries: seq<Value>, py: Foreign) returns (stats: Stats)
    requires AllStatsShaped(entries)
    ensures stats == Statistics(entries, py)
  {
    var acc := EmptyAcc;
    for i := 0 to |entries|
      invariant acc == Accumulate(entries[..i], py)
    {
      assert entries[..i + 1][..i] == entries[..i];
      acc := CountEntry(acc, entries[i], py);
    }
    assert entries[..|entries|] == entries;

    stats := Stats(|entries|, Duration(acc.timestamps),
      Counter.MostCommon(acc.endpointCounts, None),
      Counter.MostCommon(acc.methodCounts, None),
      Counter.MostCommon(acc.statusCounts, None),
      acc.endpointMethods,
      Counter.MostCommon(acc.requestKeyCounts, Some(KeyCountLimit)),
      Counter.MostCommon(acc.responseKeyCounts, Some(KeyCountLimit)),
      acc.requestKeyTypes, acc.responseKeyTypes, acc.totalReqBytes, acc.totalRespBytes);
  }

  // Properties of the statistics

  /** The endpoint of every entry, in order. */
  function Endpoints(entries: seq<Value>, py: Foreign): seq<string>
    requires AllStatsShaped(entries)
  {
    if entries == [] then [] else Endpoints(entries[..|entries| - 1], py) + [EndpointOf(entries[|entries| - 1], py)]
  }

  /** The timestamps of the entries whose timestamp is truthy, in entry order. */
  function TruthyTimestamps(entries: seq<Value>): seq<real>
    requires AllStatsShaped(entries)
  {
    if entries == [] then []
    else
      var ts := Timestamp(entries[|entries| - 1]);
      TruthyTimestamps(entries[..|entries| - 1]) + (if Truthy(ts) then [NumberValue(ts)] else [])
  }

  /** The method of every entry, in order. */
  function Methods(entries: seq<Value>): seq<string>
    requires AllStatsShaped(entries)
  {
    if entries == [] then [] else Methods(entries[..|entries| - 1]) + [MethodOf(entries[|entries| - 1])]
  }

  /** The (endpoint, method) pair of every entry, in order. */
  function EndpointMethodPairs(entries: seq<Value>, py: Foreign): seq<(string, string)>
    requires AllStatsShaped(entries)
  {
    if entries == [] then []
    else
      var e := entries[|entries| - 1];
      EndpointMethodPairs(entries[..|entries| - 1], py) + [(EndpointOf(e, py), MethodOf(e))]
  }

  lemma {:induction false} EndpointMethodPairsAt(entries: seq<Value>, py: Foreign)
    requires AllStatsShaped(entries)
    ensures |EndpointMethodPairs(entries, py)| == |entries|
    ensures forall i :: 0 <= i < |entries| ==>
      EndpointMethodPairs(entries, py)[i] == (EndpointOf(entries[i], py), MethodOf(entries[i]))
  {
    if entries != [] {
      var n := |entries| - 1;
      AllStatsShapedPrefix(entries, n);
      EndpointMethodPairsAt(entries[..n], py);
      var prev := EndpointMethodPairs(entries[..n], py);
      var last := (EndpointOf(entries[n], py), MethodOf(entries[n]));
      assert EndpointMethodPairs(entries, py) == prev + [last];
      forall i | 0 <= i < n
        ensures EndpointMethodPairs(entries, py)[i] == (EndpointOf(entries[i], py), MethodOf(entries[i]))
      {
        assert entries[..n][i] == entries[i];
        SnocIndex(prev, last, i);
      }
    }
  }

  /** `str(status)` of every entry whose status is not None, in order. */
  function Statuses(entries: seq<Value>, py: Foreign): seq<string>
    requires AllStatsShaped(entries)
  {
    if entries == [] then []
    else
      var e := entries[|entries| - 1];
      Statuses(entries[..|entries| - 1], py) + (if StatusOf(e).JNull? then [] else [Show(StatusOf(e), py)])
  }

  /** Number of entries with a status code. */
  function StatusCount(entries: seq<Value>): nat
    requires AllStatsShaped(entries)
  {
    if entries == [] then 0
    else StatusCount(entries[..|entries| - 1]) + (if StatusOf(entries[|entries| - 1]).JNull? then 0 else 1)
  }

  /** The census pairs of every request body (or every response body), in order. */
  function BodyPairsOf(entries: seq<Value>, ofRequest: bool): seq<(string, string)>
    requires AllStatsShaped(entries)
  {
    if entries == [] then []
    else
      var e := entries[|entries| - 1];
      BodyPairsOf(entries[..|entries| - 1], ofRequest) + BodyPairs(if ofRequest then RequestBody(e) else ResponseBody(e))
  }

  lemma AllStatsShapedPrefix(entries: seq<Value>, n: nat)
    requires AllStatsShaped(entries) && n <= |entries|
    ensures AllStatsShaped(entries[..n])
  {
    forall i | 0 <= i < n ensures StatsShaped(entries[..n][i]) {
      assert entries[..n][i] == entries[i];
    }
  }

  lemma PathsAppend(a: seq<(string, string)>, b: seq<(string, string)>)
    ensures Counter.Keys(a + b) == Counter.Keys(a) + Counter.Keys(b)
  {
  }

  lemma {:induction false} AddAllAppend(m: SetMap, a: seq<(string, string)>, b: seq<(string, string)>)
    ensures AddAll(m, a + b) == AddAll(AddAll(m, a), b)
    decreases |b|
  {
    if b == [] {
      assert a + b == a;
    } else {
      var b' := b[..|b| - 1];
      assert (a + b)[..|a + b| - 1] == a + b';
      assert (a + b)[|a + b| - 1] == b[|b| - 1];
      AddAllAppend(m, a, b');
    }
  }

  /** A type (or method) is recorded under a key exactly when some pair says so. */
  lemma {:induction false} AddAllIff(m: SetMap, pairs: seq<(string, string)>, k: string, v: string)
    ensures v in SetAt(AddAll(m, pairs), k) <==> v in SetAt(m, k) || (k, v) in pairs
  {
    if pairs != [] {
      var init := pairs[..|pairs| - 1];
      AddAllIff(m, init, k, v);
      assert pairs == init + [pairs[|pairs| - 1]];
    }
  }

  /** The endpoint histogram is the tally of the entries' endpoints, and
      the endpoint-to-methods map records each entry's pair. */
  lemma {:induction false} AccumulateEndpoints(entries: seq<Value>, py: Foreign)
    requires AllStatsShaped(entries)
    ensures Accumulate(entries, py).endpointCounts == Counter.Tally(Endpoints(entries, py))
    ensures Accumulate(entries, py).endpointMethods == AddAll(map[], EndpointMethodPairs(entries, py))
  {
    if entries != [] {
      var n := |entries| - 1;
      var init := entries[..n];
      AllStatsShapedPrefix(entries, n);
      AccumulateEndpoints(init, py);
      Counter.TallyIntoAppend([], Endpoints(init, py), EndpointOf(entries[n], py));
    }
  }

  /** The timestamps collected are the truthy timestamps of the entries, so
      the reported duration is the spread of those. */
  lemma {:induction false} AccumulateTimestamps(entries: seq<Value>, py: Foreign)
    requires AllStatsShaped(entries)
    ensures Accumulate(entries, py).timestamps == TruthyTimestamps(entries)
    ensures Statistics(entries, py).durationSeconds == Duration(TruthyTimestamps(entries))
  {
    if entries != [] {
      var n := |entries| - 1;
      var init := entries[..n];
      AllStatsShapedPrefix(entries, n);
      AccumulateTimestamps(init, py);
      var prev := Accumulate(init, py);
      assert Accumulate(entries, py) == Step(prev, entries[n], py);
      assert TruthyTimestamps(entries) == prev.timestamps + (if Truthy(Timestamp(entries[n])) then [NumberValue(Timestamp(entries[n]))] else []);
    }
  }

  /** The entry has a truthy timestamp whose value is `t`. */
  predicate StampedWith(entry: Value, t: real)
    requires StatsShaped(entry)
  {
    Truthy(Timestamp(entry)) && NumberValue(Timestamp(entry)) == t
  }

  /** Every collected timestamp is the truthy timestamp of some entry. */
  lemma {:induction false} TruthyTimestampSource(entries: seq<Value>, t: real) returns (i: nat)
    requires AllStatsShaped(entries) && t in TruthyTimestamps(entries)
    ensures i < |entries| && StampedWith(entries[i], t)
  {
    var n := |entries| - 1;
    var init := entries[..n];
    AllStatsShapedPrefix(entries, n);
    if t in TruthyTimestamps(init) {
      i := TruthyTimestampSource(init, t);
      assert init[i] == entries[i];
    } else {
      i := n;
    }
  }

  /** Every truthy timestamp of an entry is collected. */
  lemma {:induction false} TruthyTimestampCollected(entries: seq<Value>, t: real, i: nat)
    requires AllStatsShaped(entries) && i < |entries| && StampedWith(entries[i], t)
    ensures t in TruthyTimestamps(entries)
  {
    var n := |entries| - 1;
    var init := entries[..n];
    AllStatsShapedPrefix(entries, n);
    if i < n {
      assert init[i] == entries[i];
      TruthyTimestampCollected(init, t, i);
    }
  }

  /** A value is among the collected timestamps exactly when some entry has it
      as its truthy timestamp. */
  lemma TruthyTimestampsIff(entries: seq<Value>, t: real)
    requires AllStatsShaped(entries)
    ensures t in TruthyTimestamps(entries) <==> exists i :: 0 <= i < |entries| && StampedWith(entries[i], t)
  {
    if t in TruthyTimestamps(entries) {
      var i := TruthyTimestampSource(entries, t);
    }
    forall i | 0 <= i < |entries| && StampedWith(entries[i], t) ensures t in TruthyTimestamps(entries) {
      TruthyTimestampCollected(entries, t, i);
    }
  }

  /** The method histogram is the tally of the entries' methods. */
  lemma {:induction false} AccumulateMethods(entries: seq<Value>, py: Foreign)
    requires AllStatsShaped(entries)
    ensures Accumulate(entries, py).methodCounts == Counter.Tally(Methods(entries))
  {
    if entries != [] {
      var n := |entries| - 1;
      var init := entries[..n];
      AllStatsShapedPrefix(entries, n);
      AccumulateMethods(init, py);
      Counter.TallyIntoAppend([], Methods(init), MethodOf(entries[n]));
    }
  }

  /** The status histogram is the tally of the present statuses. */
  lemma {:induction false} AccumulateStatuses(entries: seq<Value>, py: Foreign)
    requires AllStatsShaped(entries)
    ensures Accumulate(entries, py).statusCounts == Counter.Tally(Statuses(entries, py))
  {
    if entries != [] {
      var n := |entries| - 1;
      var init := entries[..n];
      AllStatsShapedPrefix(entries, n);
      AccumulateStatuses(init, py);
      var status := StatusOf(entries[n]);
      var before := Accumulate(init, py).statusCounts;
      if !status.JNull? {
        assert Accumulate(entries, py).statusCounts == Counter.Inc(before, Show(status, py));
        assert Statuses(entries, py) == Statuses(init, py) + [Show(status, py)];
        Counter.TallyIntoAppend([], Statuses(init, py), Show(status, py));
      } else {
        assert Accumulate(entries, py).statusCounts == before;
        assert Statuses(entries, py) == Statuses(init, py);
      }
    }
  }

  /** The key counts are the tallies of the census paths of all dict bodies,
      and the key types record exactly the census pairs. */
  lemma {:induction false} AccumulateCensus(entries: seq<Value>, py: Foreign)
    requires AllStatsShaped(entries)
    ensures Accumulate(entries, py).requestKeyCounts == Counter.Tally(Counter.Keys(BodyPairsOf(entries, true)))
    ensures Accumulate(entries, py).responseKeyCounts == Counter.Tally(Counter.Keys(BodyPairsOf(entries, false)))
    ensures Accumulate(entries, py).requestKeyTypes == AddAll(map[], BodyPairsOf(entries, true))
    ensures Accumulate(entries, py).responseKeyTypes == AddAll(map[], BodyPairsOf(entries, false))
  {
    if entries != [] {
      var n := |entries| - 1;
      var init := entries[..n];
      var e := entries[n];
      AllStatsShapedPrefix(entries, n);
      AccumulateCensus(init, py);
      var rq, rs := BodyPairs(RequestBody(e)), BodyPairs(ResponseBody(e));
      PathsAppend(BodyPairsOf(init, true), rq);
      PathsAppend(BodyPairsOf(init, false), rs);
      Counter.TallyIntoConcat([], Counter.Keys(BodyPairsOf(init, true)), Counter.Keys(rq));
      Counter.TallyIntoConcat([], Counter.Keys(BodyPairsOf(init, false)), Counter.Keys(rs));
      AddAllAppend(map[], BodyPairsOf(init, true), rq);
      AddAllAppend(map[], BodyPairsOf(init, false), rs);
    }
  }

  lemma {:induction false} StatusCountIsStatuses(entries: seq<Value>, py: Foreign)
    requires AllStatsShaped(entries)
    ensures |Statuses(entries, py)| == StatusCount(entries)
  {
    if entries != [] {
      AllStatsShapedPrefix(entries, |entries| - 1);
      StatusCountIsStatuses(entries[..|entries| - 1], py);
    }
  }

  /** `total_requests` is the number of entries; the endpoint and method
      counts each sum to it, and each gives every endpoint (method) its
      number of occurrences, most frequent first. */
  lemma EndpointAndMethodTotals(entries: seq<Value>, py: Foreign)
    requires AllStatsShaped(entries)
    ensures var stats := Statistics(entries, py);
      && stats.totalRequests == |entries|
      && Counter.Total(stats.endpointCounts) == |entries|
      && Counter.Total(stats.methodCounts) == |entries|
      && Counter.NonIncreasing(stats.endpointCounts)
      && Counter.NonIncreasing(stats.methodCounts)
      && (forall e :: e in stats.endpointCounts ==> e.1 == Counter.Occurrences(Endpoints(entries, py), e.0))
      && (forall e :: e in stats.methodCounts ==> e.1 == Counter.Occurrences(Methods(entries), e.0))
  {
    AccumulateEndpoints(entries, py);
    AccumulateMethods(entries, py);
    EndpointsLength(entries, py);
    Counter.MostCommonTally(Endpoints(entries, py), None);
    Counter.MostCommonTally(Methods(entries), None);
  }

  lemma {:induction false} EndpointsLength(entries: seq<Value>, py: Foreign)
    requires AllStatsShaped(entries)
    ensures |Endpoints(entries, py)| == |entries| && |Methods(entries)| == |entries|
  {
    if entries != [] {
      AllStatsShapedPrefix(entries, |entries| - 1);
      EndpointsLength(entries[..|entries| - 1], py);
    }
  }

  /** The status counts sum to the number of entries that have a status,
      most frequent first, each status string with its number of occurrences. */
  lemma StatusTotals(entries: seq<Value>, py: Foreign)
    requires AllStatsShaped(entries)
    ensures var stats := Statistics(entries, py);
      && Counter.Total(stats.statusCounts) == StatusCount(entries)
      && Counter.NonIncreasing(stats.statusCounts)
      && (forall e :: e in stats.statusCounts ==> e.1 == Counter.Occurrences(Statuses(entries, py), e.0))
  {
    AccumulateStatuses(entries, py);
    StatusCountIsStatuses(entries, py);
    Counter.MostCommonTally(Statuses(entries, py), None);
  }

  /** Each key-count list keeps the 30 most frequent paths (all of them when
      there are at most 30 distinct ones), most frequent first, each with the
      number of times it occurs in the census of dict bodies; a path left out
      occurs no more often than any path kept. */
  lemma KeyCountsTop30(entries: seq<Value>, py: Foreign, ofRequest: bool)
    requires AllStatsShaped(entries)
    ensures var stats := Statistics(entries, py);
      var counts := if ofRequest then stats.requestKeyCounts else stats.responseKeyCounts;
      var paths := Counter.Keys(BodyPairsOf(entries, ofRequest));
      var distinct := |Counter.Tally(paths)|;
      && |counts| == (if KeyCountLimit < distinct then KeyCountLimit else distinct)
      && Counter.NonIncreasing(counts)
      && (forall e :: e in counts ==> e.1 == Counter.Occurrences(paths, e.0))
      && (distinct <= KeyCountLimit ==> forall p :: p in paths ==> p in Counter.Keys(counts))
      && (forall p, e :: p in paths && p !in Counter.Keys(counts) && e in counts ==> Counter.Occurrences(paths, p) <= e.1)
  {
    AccumulateCensus(entries, py);
    Counter.MostCommonTally(Counter.Keys(BodyPairsOf(entries, ofRequest)), Some(KeyCountLimit));
  }

  /** A type label is recorded for a path exactly when the census of some
      dict body reports that path with that label. */
  lemma KeyTypesIff(entries: seq<Value>, py: Foreign, ofRequest: bool, path: string, typeLabel: string)
    requires AllStatsShaped(entries)
    ensures var stats := Statistics(entries, py);
      var types := if ofRequest then stats.requestKeyTypes else stats.responseKeyTypes;
      typeLabel in SetAt(types, path) <==> (path, typeLabel) in BodyPairsOf(entries, ofRequest)
  {
    AccumulateCensus(entries, py);
    AddAllIff(map[], BodyPairsOf(entries, ofRequest), path, typeLabel);
  }

  /** An endpoint lists a method exactly when some entry used that method on it. */
  lemma EndpointMethodsIff(entries: seq<Value>, py: Foreign, endpoint: string, httpMethod: string)
    requires AllStatsShaped(entries)
    ensures httpMethod in SetAt(Statistics(entries, py).endpointMethods, endpoint) <==>
      exists i :: 0 <= i < |entries| && EndpointOf(entries[i], py) == endpoint && MethodOf(entries[i]) == httpMethod
  {
    AccumulateEndpoints(entries, py);
    EndpointMethodPairsAt(entries, py);
    var pairs := EndpointMethodPairs(entries, py);
    AddAllIff(map[], pairs, endpoint, httpMethod);
    if (endpoint, httpMethod) in pairs {
      var i :| 0 <= i < |pairs| && pairs[i] == (endpoint, httpMethod);
      assert EndpointOf(entries[i], py) == endpoint && MethodOf(entries[i]) == httpMethod;
    }
    if exists i :: 0 <= i < |entries| && EndpointOf(entries[i], py) == endpoint && MethodOf(entries[i]) == httpMethod {
      var i :| 0 <= i < |entries| && EndpointOf(entries[i], py) == endpoint && MethodOf(entries[i]) == httpMethod;
      assert pairs[i] == (endpoint, httpMethod);
    }
  }

  // ---------------------------------------------------------------------
  // Header redaction
  // ---------------------------------------------------------------------

  /** A redacted header value: a value over 20 characters keeps its first
      20 characters before the marker. */
  function RedactValue(v: string): string
  {
    if |v| > 20 then v[..20] + "...[REDACTED]" else "[REDACTED]"
  }

  predicate IsRedacted(key: string, redacted: set<string>)
  {
    Lower(key) in redacted
  }

  /** Headers that `redact_headers` can process: the values it truncates are strings. */
  predicate HeadersShaped(headers: seq<(string, Value)>, redacted: set<string>)
  {
    forall i :: 0 <= i < |headers| && IsRedacted(headers[i].0, redacted) ==> headers[i].1.JString?
  }

  lemma HeadersShapedPrefix(headers: seq<(string, Value)>, n: nat, redacted: set<string>)
    requires HeadersShaped(headers, redacted) && n <= |headers|
    ensures HeadersShaped(headers[..n], redacted)
  {
    forall i | 0 <= i < n && IsRedacted(headers[..n][i].0, redacted) ensures headers[..n][i].1.JString? {
      assert headers[..n][i] == headers[i];
    }
  }

  function RedactField(field: (string, Value), redacted: set<string>): (string, Value)
    requires IsRedacted(field.0, redacted) ==> field.1.JString?
  {
    if IsRedacted(field.0, redacted) then (field.0, JString(RedactValue(field.1.s))) else field
  }

  /** The dict `redact_headers(headers, redacted)` returns, in insertion order. */
  function Redacted(headers: seq<(string, Value)>, redacted: set<string>): seq<(string, Value)>
    requires HeadersShaped(headers, redacted)
  {
    if headers == [] then []
    else
      var init := headers[..|headers| - 1];
      HeadersShapedPrefix(headers, |headers| - 1, redacted);
      Redacted(init, redacted) + [RedactField(headers[|headers| - 1], redacted)]
  }

  /** `redact_headers(headers, redacted)`; the keys of a dict are distinct,
      so building the result dict key by key appends. */
  method RedactHeaders(headers: seq<(string, Value)>, redacted: set<string>) returns (result: seq<(string, Value)>)
    requires DistinctKeys(headers) && HeadersShaped(headers, redacted)
    ensures result == Redacted(headers, redacted)
  {
    result := [];
    for i := 0 to |headers|
      invariant HeadersShaped(headers[..i], redacted)
      invariant result == Redacted(headers[..i], redacted)
    {
      assert headers[..i + 1][..i] == headers[..i];
      HeadersShapedPrefix(headers, i + 1, redacted);
      var k, v := headers[i].0, headers[i].1;
      if Lower(k) in redacted {
        result := result + [(k, JString(if |v.s| > 20 then v.s[..20] + "...[REDACTED]" else "[REDACTED]"))];
      } else {
        result := result + [(k, v)];
      }
    }
    assert headers[..|headers|] == headers;
  }

  /** Redaction keeps every key in place, leaves the values of other headers
      alone and replaces the values of redacted ones. */
  lemma {:induction false} RedactedFields(headers: seq<(string, Value)>, redacted: set<string>)
    requires HeadersShaped(headers, redacted)
    ensures |Redacted(headers, redacted)| == |headers|
    ensures forall i :: 0 <= i < |headers| ==> Redacted(headers, redacted)[i].0 == headers[i].0
    ensures forall i :: 0 <= i < |headers| && !IsRedacted(headers[i].0, redacted) ==> Redacted(headers, redacted)[i] == headers[i]
    ensures forall i :: 0 <= i < |headers| && IsRedacted(headers[i].0, redacted) ==>
      Redacted(headers, redacted)[i].1 == JString(RedactValue(headers[i].1.s))
  {
    if headers != [] {
      var n := |headers| - 1;
      var init := headers[..n];
      HeadersShapedPrefix(headers, n, redacted);
      RedactedFields(init, redacted);
      var r := Redacted(headers, redacted);
      assert r == Redacted(init, redacted) + [RedactField(headers[n], redacted)];
      forall i | 0 <= i < n ensures r[i] == Redacted(init, redacted)[i] && headers[i] == init[i] {
      }
    }
  }

  /** Redacting a redacted value changes nothing. */
  lemma RedactValueIdempotent(v: string)
    ensures RedactValue(RedactValue(v)) == RedactValue(v)
    ensures |RedactValue(v)| <= 33
  {
    var r := RedactValue(v);
    if |v| > 20 {
      assert |r| == 33;
      assert r[..20] == v[..20];
    } else {
      assert |r| == 10;
    }
  }

  /** Applying redaction twice gives the same headers as applying it once. */
  lemma RedactIdempotent(headers: seq<(string, Value)>, redacted: set<string>)
    requires HeadersShaped(headers, redacted)
    ensures HeadersShaped(Redacted(headers, redacted), redacted)
    ensures Redacted(Redacted(headers, redacted), redacted) == Redacted(headers, redacted)
  {
    var r := Redacted(headers, redacted);
    RedactedFields(headers, redacted);
    assert HeadersShaped(r, redacted) by {
      forall i | 0 <= i < |r| && IsRedacted(r[i].0, redacted) ensures r[i].1.JString? {
        assert r[i].0 == headers[i].0;
      }
    }
    RedactedFields(r, redacted);
    var rr := Redacted(r, redacted);
    forall i | 0 <= i < |r| ensures rr[i] == r[i] {
      if IsRedacted(r[i].0, redacted) {
        RedactValueIdempotent(headers[i].1.s);
      }
    }
  }

  /** The Codex profile shows only the first 20 characters of a bearer token. */
  lemma RedactBearerToken()
    ensures RedactField(("Authorization", JString("Bearer sk-abcdefghijklmnop")), CodexRedactedHeaders)
      == ("Authorization", JString("Bearer sk-abcdefghij...[REDACTED]"))
  {
    assert Lower("Authorization") == "authorization";
    assert "authorization" in CodexRedactedHeaders;
    var token := "Bearer sk-abcdefghijklmnop";
    var kept := token[..20];
    assert kept == "Bearer sk-abcdefghij";
    assert RedactValue(token) == kept + "...[REDACTED]";
    assert kept + "...[REDACTED]" == "Bearer sk-abcdefghij...[REDACTED]";
  }

  /** Headers outside the redaction set pass through unchanged. */
  lemma KeepContentType()
    ensures RedactField(("Content-Type", JString("application/json")), CodexRedactedHeaders)
      == ("Content-Type", JString("application/json"))
  {
    assert Lower("Content-Type") == "content-type";
    assert "content-type" !in CodexRedactedHeaders;
  }

  // ---------------------------------------------------------------------
  // Conversation log
  // ---------------------------------------------------------------------

  function RequestHeaders(entry: Value): Value
    requires EntryShaped(entry)
  {
    Get(Request(entry), "headers", JObject([]))
  }

  function ResponseHeaders(entry: Value): Value
    requires EntryShaped(entry)
  {
    Get(Response(entry), "headers", JObject([]))
  }

  predicate HeaderDictShaped(headers: Value, redacted: set<string>)
  {
    headers.JObject? && DistinctKeys(headers.fields) && HeadersShaped(headers.fields, redacted)
  }

  /** What `format_conversations` needs of an entry so as not to raise:
      header dicts of strings, and a number wherever the timestamp is truthy,
      since `datetime.fromtimestamp` rejects anything else. */
  predicate LogShaped(entry: Value, redacted: set<string>)
  {
    && EntryShaped(entry)
    && HeaderDictShaped(RequestHeaders(entry), redacted)
    && HeaderDictShaped(ResponseHeaders(entry), redacted)
    && (var ts := Get(entry, "timestamp", JInt(0)); Truthy(ts) ==> IsNumber(ts))
  }

  predicate AllLogShaped(entries: seq<Value>, redacted: set<string>)
  {
    forall i :: 0 <= i < |entries| ==> LogShaped(entries[i], redacted)
  }

  lemma AllLogShapedPrefix(entries: seq<Value>, n: nat, redacted: set<string>)
    requires AllLogShaped(entries, redacted) && n <= |entries|
    ensures AllLogShaped(entries[..n], redacted)
  {
    forall i | 0 <= i < n ensures LogShaped(entries[..n][i], redacted) {
      assert entries[..n][i] == entries[i];
    }
  }

  /** The section heading of the `number`-th exchange. */
  function Heading(number: nat, entry: Value, py: Foreign): string
    requires EntryShaped(entry)
  {
    "### Request " + NatStr(number) + ": `" + Show(Get(Request(entry), "method", JString("?")), py) + " "
    + Show(Get(Request(entry), "url", JString("?")), py) + "` \U{2192} "
    + Show(Get(Response(entry), "status_code", JString("?")), py)
  }

  /** The wall-clock time of a truthy timestamp, `?` otherwise. */
  function TimeLine(entry: Value, py: Foreign): string
    requires entry.JObject?
  {
    var ts := Get(entry, "timestamp", JInt(0));
    "**Time:** " + (if Truthy(ts) then py.clock(ts) else "?") + " UTC"
  }

  function HeaderLine(header: (string, Value), py: Foreign): string
  {
    header.0 + ": " + Show(header.1, py)
  }

  /** One `name: value` line per header, in order. */
  function HeaderLines(headers: seq<(string, Value)>, py: Foreign): seq<string>
  {
    if headers == [] then []
    else HeaderLines(headers[..|headers| - 1], py) + [HeaderLine(headers[|headers| - 1], py)]
  }

  /** The header lines of a header dict after redaction. */
  function RedactedLines(headers: seq<(string, Value)>, redacted: set<string>, py: Foreign): seq<string>
    requires HeadersShaped(headers, redacted)
  {
    if headers == [] then []
    else
      HeadersShapedPrefix(headers, |headers| - 1, redacted);
      RedactedLines(headers[..|headers| - 1], redacted, py) + [HeaderLine(RedactField(headers[|headers| - 1], redacted), py)]
  }

  /** Rendering the redacted dict line by line gives the redacted lines. */
  lemma {:induction false} RenderRedacted(headers: seq<(string, Value)>, redacted: set<string>, py: Foreign)
    requires HeadersShaped(headers, redacted)
    ensures HeaderLines(Redacted(headers, redacted), py) == RedactedLines(headers, redacted, py)
  {
    if headers != [] {
      var init := headers[..|headers| - 1];
      HeadersShapedPrefix(headers, |headers| - 1, redacted);
      RenderRedacted(init, redacted, py);
      var prev := Redacted(init, redacted);
      var f := RedactField(headers[|headers| - 1], redacted);
      assert Redacted(headers, redacted) == prev + [f];
      assert (prev + [f])[..|prev|] == prev;
    }
  }

  function HeaderBlock(title: string, lines: seq<string>): seq<string>
  {
    ["<details>", "<summary><b>" + title + "</b></summary>", "", "```"] + lines + ["```", "</details>", ""]
  }

  function BodySection(title: string, rendered: string): seq<string>
  {
    ["#### " + title, "", rendered, ""]
  }

  /** The lines of the `number`-th exchange's section. */
  function ExchangeLines(number: nat, entry: Value, profile: AnalysisProfile, py: Foreign): seq<string>
    requires LogShaped(entry, profile.redactedHeaders)
  {
    var redacted := profile.redactedHeaders;
    [Heading(number, entry, py), TimeLine(entry, py), ""]
    + HeaderBlock("Request Headers", RedactedLines(RequestHeaders(entry).fields, redacted, py))
    + BodySection("Request Body", profile.requestBodyRenderer(Get(Request(entry), "body", JNull)))
    + HeaderBlock("Response Headers", RedactedLines(ResponseHeaders(entry).fields, redacted, py))
    + BodySection("Response Body",
        profile.responseBodyRenderer(Get(Response(entry), "body", JNull), Get(Response(entry), "status_code", JString("?"))))
    + ["---", ""]
  }

  /** The section of every exchange, numbered from 1 in entry order. */
  function Exchanges(entries: seq<Value>, profile: AnalysisProfile, py: Foreign): (r: seq<seq<string>>)
    requires AllLogShaped(entries, profile.redactedHeaders)
    ensures |r| == |entries|
  {
    seq(|entries|, i requires 0 <= i < |entries| => ExchangeLines(i + 1, entries[i], profile, py))
  }

  const LogTitle: seq<string> := ["## Full Conversation Log", ""]

  function ConversationLog(entries: seq<Value>, profile: AnalysisProfile, py: Foreign): string
    requires AllLogShaped(entries, profile.redactedHeaders)
  {
    Join(LogTitle + Concat(Exchanges(entries, profile, py)), "\n")
  }

  method RenderHeaders(headers: seq<(string, Value)>, py: Foreign) returns (lines: seq<string>)
    ensures lines == HeaderLines(headers, py)
  {
    lines := [];
    for j := 0 to |headers|
      invariant lines == HeaderLines(headers[..j], py)
    {
      assert headers[..j + 1][..j] == headers[..j];
      var k, v := headers[j].0, headers[j].1;
      lines := lines + [k + ": " + Show(v, py)];
      assert lines[|lines| - 1] == HeaderLine(headers[j], py);
    }
    assert headers[..|headers|] == headers;
  }

  /** The section of one exchange, as the loop body of `format_conversations` builds it. */
  method RenderExchange(number: nat, entry: Value, profile: AnalysisProfile, py: Foreign) returns (section: seq<string>)
    requires LogShaped(entry, profile.redactedHeaders)
    ensures section == ExchangeLines(number, entry, profile, py)
  {
    var req := Request(entry);
    var resp := Response(entry);
    var ts := Get(entry, "timestamp", JInt(0));
    var tsText := if Truthy(ts) then py.clock(ts) else "?";
    var status := Get(resp, "status_code", JString("?"));

    var opening := [Heading(number, entry, py), "**Time:** " + tsText + " UTC", ""];
    var requestHeaders := RedactHeaders(RequestHeaders(entry).fields, profile.redactedHeaders);
    var requestHeaderLines := RenderHeaders(requestHeaders, py);
    RenderRedacted(RequestHeaders(entry).fields, profile.redactedHeaders, py);
    var requestBody := BodySection("Request Body", profile.requestBodyRenderer(Get(req, "body", JNull)));
    var responseHeaders := RedactHeaders(ResponseHeaders(entry).fields, profile.redactedHeaders);
    var responseHeaderLines := RenderHeaders(responseHeaders, py);
    RenderRedacted(ResponseHeaders(entry).fields, profile.redactedHeaders, py);
    var responseBody := BodySection("Response Body", profile.responseBodyRenderer(Get(resp, "body", JNull), status));
    assert opening == [Heading(number, entry, py), TimeLine(entry, py), ""];
    section := opening + HeaderBlock("Request Headers", requestHeaderLines) + requestBody
      + HeaderBlock("Response Headers", responseHeaderLines) + responseBody + ["---", ""];
  }

  /** One turn of the loop of `format_conversations`: the `i`-th exchange's
      section is appended to the lines built so far. */
  method AppendExchange(lines: seq<string>, entries: seq<Value>, i: nat, profile: AnalysisProfile, py: Foreign)
    returns (lines': seq<string>)
    requires i < |entries| && AllLogShaped(entries, profile.redactedHeaders)
    requires lines == LogTitle + Concat(Exchanges(entries, profile, py)[..i])
    ensures lines' == LogTitle + Concat(Exchanges(entries, profile, py)[..i + 1])
  {
    ghost var sections := Exchanges(entries, profile, py);
    var section := RenderExchange(i + 1, entries[i], profile, py);
    ConcatSnoc(sections, i);
    AppendAssoc(LogTitle, Concat(sections[..i]), sections[i]);
    assert sections[i] == section;
    lines' := lines + section;
  }

  /** `format_conversations(entries, profile)`. */
  method FormatConversations(entries: seq<Value>, profile: AnalysisProfile, py: Foreign) returns (out: string)
    requires AllLogShaped(entries, profile.redactedHeaders)
    ensures out == ConversationLog(entries, profile, py)
  {
    var lines := LogTitle;
    assert Exchanges(entries, profile, py)[..0] == [];
    for i := 0 to |entries|
      invariant lines == LogTitle + Concat(Exchanges(entries, profile, py)[..i])
    {
      lines := AppendExchange(lines, entries, i, profile, py);
    }
    assert Exchanges(entries, profile, py)[..|entries|] == Exchanges(entries, profile, py);
    out := Join(lines, "\n");
  }

  /** Exactly one section per entry, in entry order: the `i`-th entry's
      section opens with heading number `i + 1` and starts right after the
      sections of the entries before it. */
  lemma SectionsInOrder(entries: seq<Value>, i: nat, profile: AnalysisProfile, py: Foreign)
    requires i < |entries| && AllLogShaped(entries, profile.redactedHeaders)
    ensures Concat(Exchanges(entries, profile, py)[..i]) + ExchangeLines(i + 1, entries[i], profile, py)
         <= Concat(Exchanges(entries, profile, py))
    ensures ExchangeLines(i + 1, entries[i], profile, py)[0] == Heading(i + 1, entries[i], py)
  {
    ConcatPrefix(Exchanges(entries, profile, py), i);
  }

  /** The heading carries the exchange's number. */
  lemma HeadingNumbered(number: nat, entry: Value, py: Foreign)
    requires EntryShaped(entry)
    ensures StartsWith(Heading(number, entry, py), "### Request " + NatStr(number) + ": `")
  {
    var p := "### Request " + NatStr(number) + ": `";
    var m := Show(Get(Request(entry), "method", JString("?")), py);
    var u := Show(Get(Request(entry), "url", JString("?")), py);
    var st := Show(Get(Response(entry), "status_code", JString("?")), py);
    StartsWithSelf(p);
    PrefixOfAppend(p, m, p);
    PrefixOfAppend(p + m, " ", p);
    PrefixOfAppend(p + m + " ", u, p);
    PrefixOfAppend(p + m + " " + u, "` \U{2192} ", p);
    PrefixOfAppend(p + m + " " + u + "` \U{2192} ", st, p);
  }

  /** The log is its title followed by the sections, joined by newlines:
      it opens with the log's title line. */
  lemma ConversationLogHeadings(entries: seq<Value>, profile: AnalysisProfile, py: Foreign)
    requires AllLogShaped(entries, profile.redactedHeaders)
    ensures StartsWith(ConversationLog(entries, profile, py), "## Full Conversation Log\n")
  {
    var parts := LogTitle + Concat(Exchanges(entries, profile, py));
    assert parts[0] == "## Full Conversation Log" && |parts| > 1;
    assert Join(parts, "\n") == parts[0] + ("\n" + Join(parts[1..], "\n"));
    assert Join(parts, "\n")[..|"## Full Conversation Log\n"|] == "## Full Conversation Log\n";
  }
}
