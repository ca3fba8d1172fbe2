/** The records the traffic tools exchange: a captured entry (one JSON line
    holding a `request` and a `response`) and the per-target analysis profile. */
module Traffic {
  import opened Json

  /** `entry.get("request", {})`. */
  function Request(entry: Value): Value
    requires entry.JObject?
  {
    Get(entry, "request", JObject([]))
  }

  /** `entry.get("response", {})`. */
  function Response(entry: Value): Value
    requires entry.JObject?
  {
    Get(entry, "response", JObject([]))
  }

  /** An entry whose `request` and `response` parts support `.get`. */
  predicate EntryShaped(entry: Value)
  {
    entry.JObject? && Request(entry).JObject? && Response(entry).JObject?
  }

  /** How a target's traffic is rendered: the body renderers are the
      profile's own callables, given here as functions. */
  datatype AnalysisProfile = AnalysisProfile(
    name: string,
    reportTitle: string,
    requestBodyRenderer: Value -> string,
    responseBodyRenderer: (Value, Value) -> string,
    redactedHeaders: set<string>)

  /** The header names a profile redacts unless it says otherwise. */
  const DefaultRedactedHeaders: set<string> := {"authorization", "cookie", "set-cookie"}

  /** The Codex profile also redacts the organisation header. */
  const CodexRedactedHeaders: set<string> := DefaultRedactedHeaders + {"openai-organization"}

  const CodexReportTitle := "Codex Traffic Analysis Report"
}
