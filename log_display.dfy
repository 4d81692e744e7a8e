/**
 * The log handler that feeds the activity panel: it keeps the 50 most
 * recent formatted records, and the panel shows the ten newest records
 * that mention MCP, newest first. The handler is created once per process.
 */
module LogDisplay {
  import opened Wrappers
  import opened Text

  const BufferSize: nat := 50
  const ShownMcpLogs: nat := 10

  datatype Record = Record(level: string, message: string, timestamp: real)

  /** `s[-n:]` */
  function LastN<T>(s: seq<T>, n: nat): (r: seq<T>)
    ensures |r| == if |s| <= n then |s| else n
    ensures r == s[|s| - |r|..]
  {
    if |s| <= n then s else s[|s| - n..]
  }

  /** `[log for log in logs if 'MCP' in log['message']]` */
  function McpLogs(logs: seq<Record>): (r: seq<Record>)
    ensures |r| <= |logs|
    ensures forall x :: x in r <==> x in logs && Contains(x.message, "MCP")
  {
    if logs == [] then []
    else if Contains(logs[0].message, "MCP") then [logs[0]] + McpLogs(logs[1..]) else McpLogs(logs[1..])
  }

  /** The filter keeps the relative order: it distributes over concatenation. */
  lemma {:induction false} McpLogsAppend(a: seq<Record>, b: seq<Record>)
    ensures McpLogs(a + b) == McpLogs(a) + McpLogs(b)
  {
    if a != [] {
      assert (a + b)[1..] == a[1..] + b;
      assert (a + b)[0] == a[0];
      McpLogsAppend(a[1..], b);
    } else {
      assert a + b == b;
    }
  }

  function Reverse<T>(s: seq<T>): (r: seq<T>)
    ensures |r| == |s| && forall i :: 0 <= i < |s| ==> r[i] == s[|s| - 1 - i]
  {
    if s == [] then [] else Reverse(s[1..]) + [s[0]]
  }

  /** What `display_mcp_logs` shows: the last ten MCP records, newest first. */
  function DisplayedMcpLogs(logs: seq<Record>): (shown: seq<Record>)
    ensures var m := McpLogs(logs);
      && |shown| == (if |m| <= ShownMcpLogs then |m| else ShownMcpLogs)
      && forall i :: 0 <= i < |shown| ==> shown[i] == m[|m| - 1 - i]
  {
    Reverse(LastN(McpLogs(logs), ShownMcpLogs))
  }

  class LogHandler {
    var logs: seq<Record>
    /** How many records `handleError` was given because formatting failed. */
    var handledErrors: nat

    ghost predicate Valid()
      reads this
    {
      |logs| <= BufferSize
    }

    constructor ()
      ensures Valid() && logs == [] && handledErrors == 0
    {
      logs := [];
      handledErrors := 0;
    }

    /**
     * `emit`: append the formatted record and keep the 50 most recent;
     * `formatted` is None when `self.format` raises, which goes to
     * `handleError` and leaves the buffer as it was.
     */
    method Emit(level: string, formatted: Option<string>, created: real)
      requires Valid()
      modifies this
      ensures Valid()
      ensures formatted.None? ==> logs == old(logs) && handledErrors == old(handledErrors) + 1
      ensures formatted.Some? ==>
                logs == LastN(old(logs) + [Record(level, formatted.value, created)], BufferSize)
                && handledErrors == old(handledErrors)
      ensures formatted.Some? ==> logs != [] && logs[|logs| - 1] == Record(level, formatted.value, created)
    {
      if formatted.None? {
        handledErrors := handledErrors + 1;
        return;
      }
      logs := logs + [Record(level, formatted.value, created)];
      if |logs| > BufferSize {
        logs := logs[|logs| - BufferSize..];
      }
    }

    /** `get_logs` */
    method GetLogs() returns (r: seq<Record>)
      requires Valid()
      ensures r == logs && |r| <= BufferSize
    {
      r := logs;
    }

    /** `get_mcp_logs` */
    method GetMcpLogs() returns (r: seq<Record>)
      ensures r == McpLogs(logs)
      ensures forall x :: x in r ==> x in logs && Contains(x.message, "MCP")
    {
      r := McpLogs(logs);
    }
  }

  /** The module-level `_log_handler`, absent until the first setup. */
  class DisplaySetup {
    var handler: LogHandler?

    constructor ()
      ensures handler == null
    {
      handler := null;
    }

    /** `setup_logging_display`: creates the handler on the first call and returns that same handler ever after. */
    method Setup() returns (h: LogHandler)
      modifies this
      ensures old(handler) != null ==> h == old(handler)
      ensures old(handler) == null ==> fresh(h) && h.logs == [] && h.Valid()
      ensures handler == h
    {
      if handler == null {
        handler := new LogHandler();
      }
      h := handler;
    }
  }

  /** Records emitted one after another: the buffer is always the last 50 of everything emitted. */
  lemma {:induction false} BufferIsSuffix(emitted: seq<Record>, r: Record)
    ensures LastN(LastN(emitted, BufferSize) + [r], BufferSize) == LastN(emitted + [r], BufferSize)
  {
    var a := LastN(emitted, BufferSize);
    if |emitted| > BufferSize {
      assert (emitted + [r])[|emitted| + 1 - BufferSize..] == a[1..] + [r];
    }
  }
}
