/**
 * The debug logger behind the debug view: every entry goes to the combined
 * `logs` list and to the list of its kind (`mcp_calls` or
 * `processing_steps`). Clock readings (`%H:%M:%S`) are parameters.
 */
module DebugLog {
  import opened Wrappers
  import opened Text

  datatype Entry =
    | McpCall(timestamp: string, tool: string, description: string, result: Option<string>)
    | Processing(timestamp: string, step: string, details: Option<string>)

  /** `[log for log in logs if log['type'] == 'mcp_call']` */
  function McpOnly(logs: seq<Entry>): (r: seq<Entry>)
    ensures |r| <= |logs|
    ensures forall e :: e in r <==> e in logs && e.McpCall?
  {
    if logs == [] then []
    else if logs[0].McpCall? then [logs[0]] + McpOnly(logs[1..]) else McpOnly(logs[1..])
  }

  /** `[log for log in logs if log['type'] == 'processing']` */
  function ProcessingOnly(logs: seq<Entry>): (r: seq<Entry>)
    ensures |r| <= |logs|
    ensures forall e :: e in r <==> e in logs && e.Processing?
  {
    if logs == [] then []
    else if logs[0].Processing? then [logs[0]] + ProcessingOnly(logs[1..]) else ProcessingOnly(logs[1..])
  }

  /** The combined list is exactly as long as the two per-kind lists together. */
  lemma {:induction false} SplitCounts(logs: seq<Entry>)
    ensures |logs| == |McpOnly(logs)| + |ProcessingOnly(logs)|
  {
    if logs != [] {
      SplitCounts(logs[1..]);
    }
  }

  /** Filtering distributes over appending one entry. */
  lemma {:induction false} FilterAppend(logs: seq<Entry>, e: Entry)
    ensures McpOnly(logs + [e]) == McpOnly(logs) + (if e.McpCall? then [e] else [])
    ensures ProcessingOnly(logs + [e]) == ProcessingOnly(logs) + (if e.Processing? then [e] else [])
  {
    if logs != [] {
      assert (logs + [e])[1..] == logs[1..] + [e];
      FilterAppend(logs[1..], e);
    }
  }

  const NoDebugInfo: string := "No debug information available"
  const McpHeader: string := "### \U{1F50D} MCP Tool Calls"
  const ProcessingHeader: string := "### ⚙️ Processing Steps"

  /** The lines of one MCP entry: its headline, then its result when that is non-empty. */
  function McpLines(logs: seq<Entry>): (lines: seq<string>)
    requires forall e :: e in logs ==> e.McpCall?
    ensures |lines| >= |logs|
  {
    if logs == [] then []
    else
      var e := logs[0];
      var head := "**" + e.timestamp + "** - \U{1F50D} " + e.tool + ": " + e.description;
      var res := if e.result.Some? && e.result.value != [] then ["   " + e.result.value] else [];
      [head] + res + McpLines(logs[1..])
  }

  function ProcessingLines(logs: seq<Entry>): (lines: seq<string>)
    requires forall e :: e in logs ==> e.Processing?
    ensures |lines| >= |logs|
  {
    if logs == [] then []
    else
      var e := logs[0];
      var head := "**" + e.timestamp + "** - " + e.step;
      var det := if e.details.Some? && e.details.value != [] then ["   _" + e.details.value + "_"] else [];
      [head] + det + ProcessingLines(logs[1..])
  }

  /** The blocks of `format_debug_output`: the MCP section (if any) before the processing section (if any). */
  function Sections(logs: seq<Entry>): seq<string>
  {
    var m := McpOnly(logs);
    var p := ProcessingOnly(logs);
    (if m != [] then [McpHeader] + McpLines(m) else []) + (if p != [] then [ProcessingHeader] + ProcessingLines(p) else [])
  }

  /** `format_debug_output` */
  function FormatDebugOutput(logs: seq<Entry>): string
  {
    if logs == [] then NoDebugInfo else Join(Sections(logs), "\n\n")
  }

  /**
   * The text is the fixed notice exactly for an empty log; otherwise it
   * opens with the MCP section when there is an MCP entry, and the
   * processing header follows all MCP lines.
   */
  lemma FormatOrder(logs: seq<Entry>)
    ensures logs == [] ==> FormatDebugOutput(logs) == NoDebugInfo
    ensures logs != [] ==> Sections(logs) != []
    ensures McpOnly(logs) != [] ==> Sections(logs)[0] == McpHeader
    ensures McpOnly(logs) == [] && ProcessingOnly(logs) != [] ==> Sections(logs)[0] == ProcessingHeader
    ensures var m := McpOnly(logs); var k := if m != [] then 1 + |McpLines(m)| else 0;
      ProcessingOnly(logs) != [] ==> k < |Sections(logs)| && Sections(logs)[k] == ProcessingHeader
  {
    if logs != [] {
      SplitCounts(logs);
    }
  }

  class DebugLogger {
    var logs: seq<Entry>
    var mcpCalls: seq<Entry>
    var processingSteps: seq<Entry>

    /** The per-kind lists are the combined list filtered by kind. */
    ghost predicate Valid()
      reads this
    {
      mcpCalls == McpOnly(logs) && processingSteps == ProcessingOnly(logs)
    }

    constructor ()
      ensures Valid() && logs == [] && mcpCalls == [] && processingSteps == []
    {
      logs, mcpCalls, processingSteps := [], [], [];
    }

    /** `log_mcp_call`: the same entry at the end of `mcp_calls` and of `logs`. */
    method LogMcpCall(timestamp: string, tool: string, description: string, result: Option<string>)
      requires Valid()
      modifies this
      ensures Valid()
      ensures var e := McpCall(timestamp, tool, description, result);
        logs == old(logs) + [e] && mcpCalls == old(mcpCalls) + [e] && processingSteps == old(processingSteps)
    {
      var e := McpCall(timestamp, tool, description, result);
      FilterAppend(logs, e);
      mcpCalls := mcpCalls + [e];
      logs := logs + [e];
    }

    /** `log_processing_step` */
    method LogProcessingStep(timestamp: string, step: string, details: Option<string>)
      requires Valid()
      modifies this
      ensures Valid()
      ensures var e := Processing(timestamp, step, details);
        logs == old(logs) + [e] && processingSteps == old(processingSteps) + [e] && mcpCalls == old(mcpCalls)
    {
      var e := Processing(timestamp, step, details);
      FilterAppend(logs, e);
      processingSteps := processingSteps + [e];
      logs := logs + [e];
    }

    /** `log_mcp_response`: a result text only when the item count is given and non-zero. */
    method LogMcpResponse(timestamp: string, toolNumber: int, description: string, itemsCount: Option<int>)
      requires Valid()
      modifies this
      ensures Valid()
      ensures var res := if itemsCount.Some? && itemsCount.value != 0
                         then Some("\U{1F4CB} Raw MCP response: " + IntToString(itemsCount.value) + " items received")
                         else None;
        logs == old(logs) + [McpCall(timestamp, "MCP Tool " + IntToString(toolNumber), description, res)]
      ensures |mcpCalls| == |old(mcpCalls)| + 1 && processingSteps == old(processingSteps)
    {
      if itemsCount.Some? && itemsCount.value != 0 {
        LogMcpCall(timestamp, "MCP Tool " + IntToString(toolNumber), description,
                   Some("\U{1F4CB} Raw MCP response: " + IntToString(itemsCount.value) + " items received"));
      } else {
        LogMcpCall(timestamp, "MCP Tool " + IntToString(toolNumber), description, None);
      }
    }

    /** `clear` */
    method Clear()
      modifies this
      ensures Valid() && logs == [] && mcpCalls == [] && processingSteps == []
    {
      logs, mcpCalls, processingSteps := [], [], [];
    }

    /** `format_debug_output` on the current lists. */
    function Format(): string
      reads this
    {
      FormatDebugOutput(logs)
    }
  }
}
