/**
 * The local tool client's transport and recovery state machine
 * (`EnhancedMCPClient` of the local build). One request is outstanding at a
 * time and every tool call uses JSON-RPC id 1.
 *
 * Everything the client learns from the operating system arrives as a
 * parameter:
 * - `now` is the clock reading at the start of the call;
 * - `spawn(k)` says whether the k-th server launch during this call left a
 *   live process;
 * - an `Exchange` says whether writing the request succeeded and what the
 *   reads returned;
 * - `decode` is `json.loads`, with None for a decoding error.
 */
module LocalClient {
  import opened Wrappers
  import opened Values
  import opened Text
  import opened Arith
  import JsonRpc
  import Monitor

  /** `server_process`: absent, running, or a process whose `poll()` has returned an exit code. */
  datatype Proc = NoProcess | Running | Exited

  datatype Config = Config(
    minCallInterval: real,
    maxConsecutiveFailures: nat,
    maxCallsBeforeRestart: nat,
    retryAttempts: nat)

  /** The constructor's settings, and `max_retries=2` at the one call of the retry helper. */
  const DefaultConfig: Config := Config(1.0, 2, 1, 2)

  /** Seconds `select` waits for the reply off Windows. */
  const SelectTimeout: nat := 5
  /** Seconds the retry helper's reader thread is given. */
  const RetryReadTimeout: nat := 30

  /**
   * What reading the reply produced: a line (`""` at end of stream or when
   * the server had already exited), no data before the wait ran out, or an
   * exception raised by `readline`.
   */
  datatype Reply = Line(text: string) | Silent | ReadFails

  /**
   * One request/response exchange: whether writing the request succeeded,
   * the first read, and the second `readline` made when the first line is
   * not JSON (None when it raised).
   */
  datatype Exchange = Exchange(written: bool, reply: Reply, followUp: Option<string>)

  datatype ClientState = ClientState(proc: Proc, lastCallTime: real, failures: nat, calls: nat)

  /** `_is_server_healthy`: a process exists and has not exited. */
  predicate Healthy(s: ClientState) { s.proc == Running }

  /** `_force_server_restart`: the old process, if any, is terminated, then a new one is launched. */
  function Restarted(s: ClientState, spawned: bool): (t: ClientState)
    ensures Healthy(t) == spawned
    ensures t.lastCallTime == s.lastCallTime && t.failures == s.failures && t.calls == s.calls
  {
    s.(proc := if spawned then Running else NoProcess)
  }

  /** The rate-limiting pause before a call. */
  function RateWait(cfg: Config, last: real, now: real): (w: real)
    ensures w >= 0.0
    ensures now - last < cfg.minCallInterval ==> now + w == last + cfg.minCallInterval
    ensures now - last >= cfg.minCallInterval ==> w == 0.0
  {
    if now - last < cfg.minCallInterval then cfg.minCallInterval - (now - last) else 0.0
  }

  /** The reader thread's timeout on Windows: shortened after failures, longer for the slow tools. */
  function ReadTimeout(failures: nat, tool: string): nat
  {
    if failures > 0 then MaxInt(20, 45 - failures * 10)
    else if tool == "moire_homobilayer" || tool == "build_supercell" then 90
    else if tool == "get_structure_data" then 60
    else 45
  }

  lemma ReadTimeoutRange(failures: nat, tool: string)
    ensures 20 <= ReadTimeout(failures, tool) <= 90
    ensures failures > 0 ==> ReadTimeout(failures, tool) == MaxInt(20, 45 - 10 * failures) <= 35
    ensures failures >= 3 ==> ReadTimeout(failures, tool) == 20
    ensures failures == 0 ==> ReadTimeout(failures, tool) == (if tool in ["moire_homobilayer", "build_supercell"] then 90 else if tool == "get_structure_data" then 60 else 45)
  {
  }

  /** More failures never lengthen the wait. */
  lemma ReadTimeoutMonotone(f1: nat, f2: nat, tool: string)
    requires 0 < f1 <= f2
    ensures ReadTimeout(f2, tool) <= ReadTimeout(f1, tool)
  {
  }

  /** The state just before the request is written, and how many launches it took. */
  datatype Prepared = Prepared(state: ClientState, restarts: nat)

  /**
   * Steps 2-4 of `call_tool` on the state after rate limiting: the proactive
   * restart once `call_count` reaches its limit, the restart after too many
   * consecutive failures, and one restart of an unhealthy server.
   */
  function Prepare(cfg: Config, s: ClientState, spawn: nat -> bool): (p: Prepared)
    ensures p.state.lastCallTime == s.lastCallTime
    ensures p.restarts <= 3
  {
    var (s2, n1) := if s.calls >= cfg.maxCallsBeforeRestart then (Restarted(s, spawn(0)).(calls := 0), 1) else (s, 0);
    var (s3, n2) := if s2.failures >= cfg.maxConsecutiveFailures then (Restarted(s2, spawn(n1)).(failures := 0), n1 + 1) else (s2, n1);
    if Healthy(s3) then Prepared(s3, n2) else Prepared(Restarted(s3, spawn(n2)), n2 + 1)
  }

  /** How the main exchange of `call_tool` ends: with a return value, or with an exception that hands over to the retry helper. */
  datatype MainStep = Finished(state: ClientState, result: Option<Value>, timedOut: bool, succeeded: bool) | Raised

  /** The line to decode: the first line if it looks like a JSON object, else the follow-up line if that does. */
  function ChooseLine(first: string, followUp: Option<string>): (r: Option<string>)
    ensures r.Some? ==> JsonRpc.LooksLikeJsonObject(r.value)
    ensures JsonRpc.LooksLikeJsonObject(first) ==> r == Some(first)
  {
    if JsonRpc.LooksLikeJsonObject(first) then Some(first)
    else match followUp
      case None => None
      case Some(second) => if second != [] && JsonRpc.LooksLikeJsonObject(second) then Some(second) else None
  }

  /** Decoding and classifying the chosen line; a parsed `result` resets the failure counter. */
  function ParseMain(s: ClientState, line: string, decode: string -> Option<Value>): MainStep
  {
    match decode(line)
    case None => Finished(s, None, false, false)
    case Some(reply) =>
      if HasKey(reply, "error") then Finished(s, None, false, false)
      else if HasKey(reply, "result") then Finished(s.(failures := 0), JsonRpc.ClassifyReply(reply), false, true)
      else Finished(s, Some(List([])), false, false)
  }

  /** The request/response exchange of `call_tool` on a healthy server. */
  function MainExchange(s: ClientState, onWindows: bool, x: Exchange, decode: string -> Option<Value>): MainStep
  {
    if !x.written then Raised
    else match x.reply
      case Silent =>
        if onWindows then Finished(s.(proc := NoProcess, failures := s.failures + 1), None, true, false)
        else Finished(s, None, false, false)
      case ReadFails =>
        if onWindows then Finished(s, None, false, false) else Raised
      case Line(t) => LineStep(s, t, x.followUp, decode)
  }

  /** A line read back: an empty one, or the chosen line decoded and classified. */
  function LineStep(s: ClientState, t: string, followUp: Option<string>, decode: string -> Option<Value>): MainStep
  {
    if t == [] then Finished(s, None, false, false)
    else match ChooseLine(t, followUp)
      case None => Finished(s, None, false, false)
      case Some(line) => ParseMain(s, line, decode)
  }

  /** `_execute_tool_call` as the retry helper uses it: None when the write raised, else the returned value. */
  function Execute(x: Exchange, decode: string -> Option<Value>): Option<Option<Value>>
  {
    if !x.written then None
    else match x.reply
      case Line(t) =>
        if t != [] && JsonRpc.LooksLikeJsonObject(t) then
          match decode(t)
          case None => Some(None)
          case Some(reply) => Some(JsonRpc.ClassifyRetryReply(reply))
        else Some(None)
      case _ => Some(None)
  }

  datatype RetryOutcome = RetryOutcome(
    state: ClientState,
    result: Option<Value>,
    restarts: nat,
    backoffs: seq<nat>,
    exhausted: bool)

  /**
   * `_retry_tool_call` from attempt `attempt` on: restart, sleep
   * `2^attempt` seconds, and return what a healthy server answers; a write
   * that raises on the last attempt counts a failure, and running out of
   * attempts counts one more. `restarts` numbers the launches so far and
   * `backoffs` the sleeps so far.
   */
  function Retry(cfg: Config, s: ClientState, attempt: nat, restarts: nat, backoffs: seq<nat>,
                 spawn: nat -> bool, exchanges: nat -> Exchange, decode: string -> Option<Value>): RetryOutcome
    decreases cfg.retryAttempts - attempt
  {
    if attempt >= cfg.retryAttempts then RetryOutcome(s.(failures := s.failures + 1), None, restarts, backoffs, true)
    else
      var s1 := Restarted(s, spawn(restarts));
      var slept := backoffs + [Pow2(attempt)];
      if !Healthy(s1) then Retry(cfg, s1, attempt + 1, restarts + 1, slept, spawn, exchanges, decode)
      else match Execute(exchanges(attempt), decode)
        case Some(r) => RetryOutcome(s1, r, restarts + 1, slept, false)
        case None =>
          var s2 := if attempt == cfg.retryAttempts - 1 then s1.(failures := s1.failures + 1) else s1;
          Retry(cfg, s2, attempt + 1, restarts + 1, slept, spawn, exchanges, decode)
  }

  /**
   * Retrying from attempt `attempt`: one launch and one sleep of `2^k`
   * seconds per attempt k, never more than the attempts left; an early
   * return keeps the failure counter, exhaustion adds one or two.
   */
  lemma RetryShape(cfg: Config, s: ClientState, attempt: nat, restarts: nat, backoffs: seq<nat>,
                   spawn: nat -> bool, exchanges: nat -> Exchange, decode: string -> Option<Value>)
    requires attempt <= cfg.retryAttempts
    ensures var o := Retry(cfg, s, attempt, restarts, backoffs, spawn, exchanges, decode);
      && |backoffs| <= |o.backoffs| <= |backoffs| + cfg.retryAttempts - attempt
      && o.backoffs[..|backoffs|] == backoffs
      && (forall k :: |backoffs| <= k < |o.backoffs| ==> o.backoffs[k] == Pow2(attempt + k - |backoffs|))
      && o.restarts == restarts + |o.backoffs| - |backoffs|
      && o.state.calls == s.calls && o.state.lastCallTime == s.lastCallTime
      && (o.exhausted ==> |o.backoffs| == |backoffs| + cfg.retryAttempts - attempt && o.result.None?)
      && (o.exhausted ==> s.failures + 1 <= o.state.failures <= s.failures + 2)
      && (!o.exhausted ==> o.state.failures == s.failures && Healthy(o.state))
  {
    RetrySleeps(cfg, s, attempt, restarts, backoffs, spawn, exchanges, decode);
    RetryState(cfg, s, attempt, restarts, backoffs, spawn, exchanges, decode);
  }

  /** The sleeps of a retry run: one per attempt made, doubling, each with its launch. */
  lemma {:induction false} RetrySleeps(cfg: Config, s: ClientState, attempt: nat, restarts: nat, backoffs: seq<nat>,
                                       spawn: nat -> bool, exchanges: nat -> Exchange, decode: string -> Option<Value>)
    requires attempt <= cfg.retryAttempts
    ensures var o := Retry(cfg, s, attempt, restarts, backoffs, spawn, exchanges, decode);
      && |backoffs| <= |o.backoffs| <= |backoffs| + cfg.retryAttempts - attempt
      && o.backoffs[..|backoffs|] == backoffs
      && (forall k :: |backoffs| <= k < |o.backoffs| ==> o.backoffs[k] == Pow2(attempt + k - |backoffs|))
      && o.restarts == restarts + |o.backoffs| - |backoffs|
      && (o.exhausted ==> |o.backoffs| == |backoffs| + cfg.retryAttempts - attempt)
    decreases cfg.retryAttempts - attempt
  {
    if attempt < cfg.retryAttempts {
      var s1 := Restarted(s, spawn(restarts));
      var slept := backoffs + [Pow2(attempt)];
      var s2 := if Healthy(s1) && attempt == cfg.retryAttempts - 1 then s1.(failures := s1.failures + 1) else s1;
      var o := Retry(cfg, s, attempt, restarts, backoffs, spawn, exchanges, decode);
      if !Healthy(s1) || Execute(exchanges(attempt), decode).None? {
        RetrySleeps(cfg, s2, attempt + 1, restarts + 1, slept, spawn, exchanges, decode);
        assert o == Retry(cfg, s2, attempt + 1, restarts + 1, slept, spawn, exchanges, decode);
        assert o.backoffs[..|slept|] == slept;
        assert o.backoffs[..|backoffs|] == slept[..|backoffs|] == backoffs;
        forall k | |backoffs| <= k < |o.backoffs|
          ensures o.backoffs[k] == Pow2(attempt + k - |backoffs|)
        {
          if k == |backoffs| {
            assert o.backoffs[k] == slept[k];
          }
        }
      } else {
        assert o.backoffs == slept;
      }
    }
  }

  /** The client state after a retry run: the counters it keeps, and the failures an early return or exhaustion leaves. */
  lemma {:induction false} RetryState(cfg: Config, s: ClientState, attempt: nat, restarts: nat, backoffs: seq<nat>,
                                      spawn: nat -> bool, exchanges: nat -> Exchange, decode: string -> Option<Value>)
    requires attempt <= cfg.retryAttempts
    ensures var o := Retry(cfg, s, attempt, restarts, backoffs, spawn, exchanges, decode);
      && o.state.calls == s.calls && o.state.lastCallTime == s.lastCallTime
      && (o.exhausted ==> o.result.None?)
      && (o.exhausted ==> s.failures + 1 <= o.state.failures <= s.failures + 2)
      && (!o.exhausted ==> o.state.failures == s.failures && Healthy(o.state))
    decreases cfg.retryAttempts - attempt
  {
    if attempt < cfg.retryAttempts {
      var s1 := Restarted(s, spawn(restarts));
      var slept := backoffs + [Pow2(attempt)];
      if !Healthy(s1) {
        RetryState(cfg, s1, attempt + 1, restarts + 1, slept, spawn, exchanges, decode);
      } else if Execute(exchanges(attempt), decode).None? {
        var s2 := if attempt == cfg.retryAttempts - 1 then s1.(failures := s1.failures + 1) else s1;
        RetryState(cfg, s2, attempt + 1, restarts + 1, slept, spawn, exchanges, decode);
        var o := Retry(cfg, s2, attempt + 1, restarts + 1, slept, spawn, exchanges, decode);
        if attempt + 1 < cfg.retryAttempts {
          assert s2.failures == s.failures;
        } else {
          assert o.exhausted && o.state.failures == s2.failures + 1;
        }
      }
    }
  }

  /** A whole retry run: at most `retryAttempts` attempts, sleeping 1, 2, 4, ... seconds after the successive restarts. */
  lemma RetryBackoffs(cfg: Config, s: ClientState, restarts: nat,
                      spawn: nat -> bool, exchanges: nat -> Exchange, decode: string -> Option<Value>)
    ensures var o := Retry(cfg, s, 0, restarts, [], spawn, exchanges, decode);
      && |o.backoffs| <= cfg.retryAttempts
      && (forall k :: 0 <= k < |o.backoffs| ==> o.backoffs[k] == Pow2(k))
      && o.restarts == restarts + |o.backoffs|
      && (o.exhausted <==> o.state.failures > s.failures)
  {
    RetryShape(cfg, s, 0, restarts, [], spawn, exchanges, decode);
  }

  /** Each backoff of the retry helper goes with one restart. */
  lemma RetryCountsRestarts(cfg: Config, s: ClientState, restarts: nat,
                            spawn: nat -> bool, exchanges: nat -> Exchange, decode: string -> Option<Value>)
    ensures var o := Retry(cfg, s, 0, restarts, [], spawn, exchanges, decode);
      o.restarts == restarts + |o.backoffs|
  {
    RetryShape(cfg, s, 0, restarts, [], spawn, exchanges, decode);
  }

  /** When every attempt's write raises, the exhausted run counts two failures, not one. */
  lemma RetryCountsWriteFailureTwice(s: ClientState, spawn: nat -> bool, exchanges: nat -> Exchange, decode: string -> Option<Value>)
    requires forall k :: spawn(k)
    requires forall k :: !exchanges(k).written
    ensures Retry(DefaultConfig, s, 0, 0, [], spawn, exchanges, decode).state.failures == s.failures + 2
  {
    assert spawn(0) && spawn(1);
    assert !exchanges(0).written && !exchanges(1).written;
  }

  /** Everything one `call_tool` invocation does, as a function of the state before it. */
  datatype CallOutcome = CallOutcome(
    state: ClientState,
    result: Option<Value>,
    restarts: nat,
    sent: bool,
    timedOut: bool,
    succeeded: bool,
    rateWait: real,
    readWait: nat,
    backoffs: seq<nat>)

  function CallToolSpec(cfg: Config, s: ClientState, tool: string, now: real, onWindows: bool,
                        spawn: nat -> bool, x: Exchange, retries: nat -> Exchange,
                        decode: string -> Option<Value>): CallOutcome
  {
    var wait := RateWait(cfg, s.lastCallTime, now);
    var p := Prepare(cfg, s.(lastCallTime := now + wait, calls := s.calls + 1), spawn);
    if !Healthy(p.state) then
      CallOutcome(p.state.(failures := p.state.failures + 1), None, p.restarts, false, false, false, wait, 0, [])
    else SendSpec(cfg, p, tool, onWindows, spawn, x, retries, decode, wait)
  }

  /** The part of `call_tool` from writing the request on. */
  function SendSpec(cfg: Config, p: Prepared, tool: string, onWindows: bool,
                    spawn: nat -> bool, x: Exchange, retries: nat -> Exchange,
                    decode: string -> Option<Value>, wait: real): CallOutcome
  {
    var readWait := if onWindows then ReadTimeout(p.state.failures, tool) else SelectTimeout;
    match MainExchange(p.state, onWindows, x, decode)
    case Finished(t, r, timedOut, succeeded) => CallOutcome(t, r, p.restarts, true, timedOut, succeeded, wait, readWait, [])
    case Raised =>
      var o := Retry(cfg, p.state, 0, p.restarts, [], spawn, retries, decode);
      CallOutcome(o.state, o.result, o.restarts, true, false, false, wait, readWait, o.backoffs)
  }

  /** A line read back finishes the call without a timeout and without the retry helper. */
  lemma SendLine(cfg: Config, p: Prepared, tool: string, onWindows: bool, spawn: nat -> bool, x: Exchange,
                 retries: nat -> Exchange, decode: string -> Option<Value>, wait: real)
    requires x.written && x.reply.Line?
    ensures var step := LineStep(p.state, x.reply.text, x.followUp, decode);
      var o := SendSpec(cfg, p, tool, onWindows, spawn, x, retries, decode, wait);
      && step.Finished?
      && o.state == step.state && o.result == step.result && o.succeeded == step.succeeded
      && o.restarts == p.restarts && !o.timedOut && o.backoffs == []
  {
    LineStepFinishes(p.state, x.reply.text, x.followUp, decode);
    var step := LineStep(p.state, x.reply.text, x.followUp, decode);
    assert MainExchange(p.state, onWindows, x, decode) == step;
  }

  lemma LineStepFinishes(s: ClientState, t: string, followUp: Option<string>, decode: string -> Option<Value>)
    ensures LineStep(s, t, followUp, decode).Finished? && !LineStep(s, t, followUp, decode).timedOut
  {
  }

  /** Successive calls start at least `min_call_interval` apart. */
  lemma CallRateLimited(cfg: Config, s: ClientState, tool: string, now: real, onWindows: bool,
                        spawn: nat -> bool, x: Exchange, retries: nat -> Exchange, decode: string -> Option<Value>)
    ensures var o := CallToolSpec(cfg, s, tool, now, onWindows, spawn, x, retries, decode);
      o.state.lastCallTime == MaxReal(now, s.lastCallTime + cfg.minCallInterval)
  {
    var wait := RateWait(cfg, s.lastCallTime, now);
    var p := Prepare(cfg, s.(lastCallTime := now + wait, calls := s.calls + 1), spawn);
    assert p.state.lastCallTime == now + wait;
    if Healthy(p.state) {
      SendKeepsCalls(cfg, p, tool, onWindows, spawn, x, retries, decode, wait);
    }
  }

  /** `call_count` counts the call and drops to 0 when it reaches the limit; with the default limit of 1 every call restarts the server. */
  lemma CallCountRestarts(cfg: Config, s: ClientState, tool: string, now: real, onWindows: bool,
                          spawn: nat -> bool, x: Exchange, retries: nat -> Exchange, decode: string -> Option<Value>)
    ensures var o := CallToolSpec(cfg, s, tool, now, onWindows, spawn, x, retries, decode);
      && o.state.calls == (if s.calls + 1 >= cfg.maxCallsBeforeRestart then 0 else s.calls + 1)
      && (s.calls + 1 >= cfg.maxCallsBeforeRestart ==> o.restarts >= 1)
      && (cfg == DefaultConfig ==> o.state.calls == 0 && o.restarts >= 1)
  {
    var wait := RateWait(cfg, s.lastCallTime, now);
    var s1 := s.(lastCallTime := now + wait, calls := s.calls + 1);
    PrepareCounts(cfg, s1, spawn);
    CallKeepsPrepared(cfg, s, tool, now, onWindows, spawn, x, retries, decode);
  }

  /** The proactive restart: `call_count` drops to 0 exactly when it has reached its limit, and that costs a launch. */
  lemma PrepareCounts(cfg: Config, s: ClientState, spawn: nat -> bool)
    ensures Prepare(cfg, s, spawn).state.calls == (if s.calls >= cfg.maxCallsBeforeRestart then 0 else s.calls)
    ensures s.calls >= cfg.maxCallsBeforeRestart ==> Prepare(cfg, s, spawn).restarts >= 1
  {
  }

  /** After the prepared state, the call neither changes `call_count` nor undoes a launch. */
  lemma CallKeepsPrepared(cfg: Config, s: ClientState, tool: string, now: real, onWindows: bool,
                          spawn: nat -> bool, x: Exchange, retries: nat -> Exchange, decode: string -> Option<Value>)
    ensures var o := CallToolSpec(cfg, s, tool, now, onWindows, spawn, x, retries, decode);
      var p := Prepare(cfg, s.(lastCallTime := now + RateWait(cfg, s.lastCallTime, now), calls := s.calls + 1), spawn);
      o.state.calls == p.state.calls && o.restarts >= p.restarts
  {
    var wait := RateWait(cfg, s.lastCallTime, now);
    var p := Prepare(cfg, s.(lastCallTime := now + wait, calls := s.calls + 1), spawn);
    if Healthy(p.state) {
      SendKeepsCalls(cfg, p, tool, onWindows, spawn, x, retries, decode, wait);
    }
  }

  /** Sending, reading and retrying leave `call_count` alone. */
  lemma SendKeepsCalls(cfg: Config, p: Prepared, tool: string, onWindows: bool,
                       spawn: nat -> bool, x: Exchange, retries: nat -> Exchange,
                       decode: string -> Option<Value>, wait: real)
    ensures var o := SendSpec(cfg, p, tool, onWindows, spawn, x, retries, decode, wait);
      o.state.calls == p.state.calls && o.restarts >= p.restarts
    ensures SendSpec(cfg, p, tool, onWindows, spawn, x, retries, decode, wait).state.lastCallTime == p.state.lastCallTime
  {
    if MainExchange(p.state, onWindows, x, decode).Raised? {
      RetryShape(cfg, p.state, 0, p.restarts, [], spawn, retries, decode);
    }
  }

  /** Reaching `max_consecutive_failures` forces a restart and sends with the counter back at 0. */
  lemma FailureLimitResets(cfg: Config, s: ClientState, spawn: nat -> bool)
    requires s.failures >= cfg.maxConsecutiveFailures
    ensures Prepare(cfg, s, spawn).state.failures == 0
    ensures Prepare(cfg, s, spawn).restarts >= 1
  {
  }

  /** A server that is still unhealthy after its restart fails the call without writing: None and one more failure. */
  lemma UnhealthyCallFails(cfg: Config, s: ClientState, tool: string, now: real, onWindows: bool,
                           spawn: nat -> bool, x: Exchange, retries: nat -> Exchange, decode: string -> Option<Value>)
    requires var w := RateWait(cfg, s.lastCallTime, now);
      !Healthy(Prepare(cfg, s.(lastCallTime := now + w, calls := s.calls + 1), spawn).state)
    ensures var o := CallToolSpec(cfg, s, tool, now, onWindows, spawn, x, retries, decode);
      var p := Prepare(cfg, s.(lastCallTime := now + RateWait(cfg, s.lastCallTime, now), calls := s.calls + 1), spawn);
      o.result.None? && !o.sent && o.state.failures == p.state.failures + 1
  {
  }

  /** A Windows read timeout kills the server, adds exactly one failure and returns None. */
  lemma TimeoutKillsServer(cfg: Config, s: ClientState, tool: string, now: real,
                           spawn: nat -> bool, x: Exchange, retries: nat -> Exchange, decode: string -> Option<Value>)
    requires x.written && x.reply == Silent
    requires var w := RateWait(cfg, s.lastCallTime, now);
      Healthy(Prepare(cfg, s.(lastCallTime := now + w, calls := s.calls + 1), spawn).state)
    ensures var o := CallToolSpec(cfg, s, tool, now, true, spawn, x, retries, decode);
      var p := Prepare(cfg, s.(lastCallTime := now + RateWait(cfg, s.lastCallTime, now), calls := s.calls + 1), spawn);
      && o.result.None? && o.timedOut && o.state.proc == NoProcess
      && o.state.failures == p.state.failures + 1
      && o.readWait == ReadTimeout(p.state.failures, tool)
  {
  }

  /** A reply line carrying a `result` and no `error` returns its normalised content and resets the failure counter. */
  lemma ResultResetsFailures(cfg: Config, s: ClientState, tool: string, now: real, onWindows: bool,
                             spawn: nat -> bool, x: Exchange, retries: nat -> Exchange, decode: string -> Option<Value>,
                             reply: Value)
    requires x.written && x.reply.Line? && JsonRpc.LooksLikeJsonObject(x.reply.text)
    requires decode(x.reply.text) == Some(reply) && HasKey(reply, "result") && !HasKey(reply, "error")
    requires var w := RateWait(cfg, s.lastCallTime, now);
      Healthy(Prepare(cfg, s.(lastCallTime := now + w, calls := s.calls + 1), spawn).state)
    ensures var o := CallToolSpec(cfg, s, tool, now, onWindows, spawn, x, retries, decode);
      && o.result == Some(JsonRpc.Normalise(reply.fields["result"]))
      && o.state.failures == 0 && o.succeeded && !o.timedOut
  {
    var t := x.reply.text;
    var w := RateWait(cfg, s.lastCallTime, now);
    var p := Prepare(cfg, s.(lastCallTime := now + w, calls := s.calls + 1), spawn);
    SendLine(cfg, p, tool, onWindows, spawn, x, retries, decode, w);
    assert ChooseLine(t, x.followUp) == Some(t);
    assert LineStep(p.state, t, x.followUp, decode) == Finished(p.state.(failures := 0), JsonRpc.ClassifyReply(reply), false, true);
  }

  /** An `error` member in the reply gives None and leaves the failure counter as it was at sending. */
  lemma ErrorReplyKeepsCounter(cfg: Config, s: ClientState, tool: string, now: real, onWindows: bool,
                               spawn: nat -> bool, x: Exchange, retries: nat -> Exchange, decode: string -> Option<Value>,
                               reply: Value)
    requires x.written && x.reply.Line? && JsonRpc.LooksLikeJsonObject(x.reply.text)
    requires decode(x.reply.text) == Some(reply) && HasKey(reply, "error")
    requires var w := RateWait(cfg, s.lastCallTime, now);
      Healthy(Prepare(cfg, s.(lastCallTime := now + w, calls := s.calls + 1), spawn).state)
    ensures var o := CallToolSpec(cfg, s, tool, now, onWindows, spawn, x, retries, decode);
      var p := Prepare(cfg, s.(lastCallTime := now + RateWait(cfg, s.lastCallTime, now), calls := s.calls + 1), spawn);
      o.result.None? && o.state == p.state && !o.succeeded
  {
    var t := x.reply.text;
    assert t != [];
    assert ChooseLine(t, x.followUp) == Some(t);
    var p := Prepare(cfg, s.(lastCallTime := now + RateWait(cfg, s.lastCallTime, now), calls := s.calls + 1), spawn);
    assert MainExchange(p.state, onWindows, x, decode) == Finished(p.state, None, false, false);
  }

  /** The client object: the fields `call_tool` updates, the fixed limits, and the shared monitor (absent when monitoring is unavailable). */
  class McpClient {
    var proc: Proc
    var lastCallTime: real
    var failures: nat
    var calls: nat
    const cfg: Config
    const monitor: Monitor.ServerMonitor?

    function State(): ClientState
      reads this
    {
      ClientState(proc, lastCallTime, failures, calls)
    }

    constructor (monitor: Monitor.ServerMonitor?)
      ensures State() == ClientState(NoProcess, 0.0, 0, 0)
      ensures cfg == DefaultConfig && this.monitor == monitor
    {
      proc := NoProcess;
      lastCallTime := 0.0;
      failures := 0;
      calls := 0;
      cfg := DefaultConfig;
      this.monitor := monitor;
    }

    /** `_is_server_healthy` */
    predicate IsServerHealthy()
      reads this
    {
      proc == Running
    }

    /** The server process exits on its own; `poll()` reports it from now on. */
    method ServerExited()
      modifies this
      ensures proc == (if old(proc) == Running then Exited else old(proc))
      ensures lastCallTime == old(lastCallTime) && failures == old(failures) && calls == old(calls)
    {
      if proc == Running {
        proc := Exited;
      }
    }

    /** `stop_server` */
    method StopServer()
      modifies this
      ensures State() == old(State()).(proc := NoProcess)
    {
      proc := NoProcess;
    }

    /** `_force_server_restart`: one restart recorded by the monitor, then a launch that leaves a live process iff `spawned`. */
    method ForceServerRestart(spawned: bool)
      modifies this, monitor
      ensures State() == Restarted(old(State()), spawned)
      ensures monitor != null ==> monitor.restartCount == old(monitor.restartCount) + 1
      ensures monitor != null ==> monitor.callCount == old(monitor.callCount) && monitor.successCount == old(monitor.successCount)
      ensures monitor != null ==> monitor.timeoutCount == old(monitor.timeoutCount) && monitor.failureCount == old(monitor.failureCount)
    {
      if monitor != null {
        monitor.LogServerRestart();
      }
      if proc != NoProcess {
        proc := NoProcess;
      }
      // start_server(): its success flag is only logged here
      proc := if spawned then Running else NoProcess;
    }

    /** `_retry_tool_call(tool, arguments, max_retries)` starting at launch number `restarts`. */
    method RetryToolCall(restarts: nat, spawn: nat -> bool, exchanges: nat -> Exchange, decode: string -> Option<Value>)
      returns (r: Option<Value>, backoffs: seq<nat>)
      modifies this, monitor
      ensures var o := Retry(cfg, old(State()), 0, restarts, [], spawn, exchanges, decode);
        State() == o.state && r == o.result && backoffs == o.backoffs
      ensures monitor != null ==> monitor.restartCount == old(monitor.restartCount) + |backoffs|
      ensures monitor != null ==> monitor.callCount == old(monitor.callCount) && monitor.successCount == old(monitor.successCount)
      ensures monitor != null ==> monitor.timeoutCount == old(monitor.timeoutCount) && monitor.failureCount == old(monitor.failureCount)
    {
      ghost var goal := Retry(cfg, State(), 0, restarts, [], spawn, exchanges, decode);
      backoffs := [];
      var launches := restarts;
      for attempt := 0 to cfg.retryAttempts
        invariant launches == restarts + attempt && |backoffs| == attempt
        invariant Retry(cfg, State(), attempt, launches, backoffs, spawn, exchanges, decode) == goal
        invariant monitor != null ==> monitor.restartCount == old(monitor.restartCount) + attempt
        invariant monitor != null ==> monitor.callCount == old(monitor.callCount) && monitor.successCount == old(monitor.successCount)
        invariant monitor != null ==> monitor.timeoutCount == old(monitor.timeoutCount) && monitor.failureCount == old(monitor.failureCount)
      {
        ForceServerRestart(spawn(launches));
        launches := launches + 1;
        backoffs := backoffs + [Pow2(attempt)];
        if IsServerHealthy() {
          var executed := Execute(exchanges(attempt), decode);
          if executed.Some? {
            r := executed.value;
            return;
          }
          if attempt == cfg.retryAttempts - 1 {
            failures := failures + 1;
          }
        }
      }
      failures := failures + 1;
      r := None;
    }

    /** Steps 2-4 of `call_tool`: the restarts before sending, with the monitor told of the call's start. */
    method PrepareCall(spawn: nat -> bool) returns (launches: nat)
      modifies this, monitor
      ensures Prepared(State(), launches) == Prepare(cfg, old(State()), spawn)
      ensures monitor != null ==> monitor.callCount == old(monitor.callCount) + 1
      ensures monitor != null ==> monitor.restartCount == old(monitor.restartCount) + launches
      ensures monitor != null ==> monitor.successCount == old(monitor.successCount)
      ensures monitor != null ==> monitor.timeoutCount == old(monitor.timeoutCount) && monitor.failureCount == old(monitor.failureCount)
    {
      launches := 0;
      if calls >= cfg.maxCallsBeforeRestart {
        ForceServerRestart(spawn(launches));
        launches := launches + 1;
        calls := 0;
      }
      if monitor != null {
        monitor.LogCallStart();
      }
      if failures >= cfg.maxConsecutiveFailures {
        ForceServerRestart(spawn(launches));
        launches := launches + 1;
        failures := 0;
      }
      if !IsServerHealthy() {
        ForceServerRestart(spawn(launches));
        launches := launches + 1;
      }
    }

    /** Writing the request to a healthy server and reading the reply, with the retry helper when that raises. */
    method SendRequest(tool: string, onWindows: bool, launches: nat, spawn: nat -> bool, x: Exchange,
                       retries: nat -> Exchange, decode: string -> Option<Value>, ghost wait: real)
      returns (r: Option<Value>, backoffs: seq<nat>)
      requires IsServerHealthy()
      modifies this, monitor
      ensures var o := SendSpec(cfg, Prepared(old(State()), launches), tool, onWindows, spawn, x, retries, decode, wait);
        State() == o.state && r == o.result && backoffs == o.backoffs
      ensures var o := SendSpec(cfg, Prepared(old(State()), launches), tool, onWindows, spawn, x, retries, decode, wait);
        monitor != null ==>
          && monitor.callCount == old(monitor.callCount)
          && monitor.restartCount == old(monitor.restartCount) + o.restarts - launches
          && monitor.successCount == old(monitor.successCount) + (if o.succeeded then 1 else 0)
          && monitor.timeoutCount == old(monitor.timeoutCount) + (if o.timedOut then 1 else 0)
          && monitor.failureCount == old(monitor.failureCount)
    {
      backoffs := [];
      if !x.written {
        r, backoffs := HandOverToRetry(tool, onWindows, launches, spawn, x, retries, decode, wait);
        return;
      }
      match x.reply {
        case Silent =>
          if onWindows {
            if monitor != null {
              monitor.LogCallTimeout();
            }
            proc := NoProcess;
            failures := failures + 1;
          }
          return None, [];
        case ReadFails =>
          if onWindows {
            return None, [];
          }
          r, backoffs := HandOverToRetry(tool, onWindows, launches, spawn, x, retries, decode, wait);
          return;
        case Line(t) =>
          SendLine(cfg, Prepared(State(), launches), tool, onWindows, spawn, x, retries, decode, wait);
          r := ReadLine(t, x.followUp, decode);
      }
    }

    /** The exception handler of the main exchange: the retry helper takes over the call. */
    method HandOverToRetry(tool: string, onWindows: bool, launches: nat, spawn: nat -> bool, x: Exchange,
                           retries: nat -> Exchange, decode: string -> Option<Value>, ghost wait: real)
      returns (r: Option<Value>, backoffs: seq<nat>)
      requires MainExchange(State(), onWindows, x, decode) == Raised
      modifies this, monitor
      ensures var o := SendSpec(cfg, Prepared(old(State()), launches), tool, onWindows, spawn, x, retries, decode, wait);
        State() == o.state && r == o.result && backoffs == o.backoffs
      ensures var o := SendSpec(cfg, Prepared(old(State()), launches), tool, onWindows, spawn, x, retries, decode, wait);
        monitor != null ==>
          && monitor.callCount == old(monitor.callCount)
          && monitor.restartCount == old(monitor.restartCount) + o.restarts - launches
          && monitor.successCount == old(monitor.successCount)
          && monitor.timeoutCount == old(monitor.timeoutCount)
          && monitor.failureCount == old(monitor.failureCount)
          && !o.succeeded && !o.timedOut
    {
      RetryCountsRestarts(cfg, State(), launches, spawn, retries, decode);
      r, backoffs := RetryToolCall(launches, spawn, retries, decode);
    }

    /** A non-empty first line, or an empty one: choose, decode and classify, counting a success with the monitor. */
    method ReadLine(t: string, followUp: Option<string>, decode: string -> Option<Value>) returns (r: Option<Value>)
      modifies this, monitor
      ensures var step := LineStep(old(State()), t, followUp, decode);
        State() == step.state && r == step.result
        && (monitor != null ==> monitor.successCount == old(monitor.successCount) + (if step.succeeded then 1 else 0))
      ensures monitor != null ==> monitor.callCount == old(monitor.callCount) && monitor.restartCount == old(monitor.restartCount)
      ensures monitor != null ==> monitor.timeoutCount == old(monitor.timeoutCount) && monitor.failureCount == old(monitor.failureCount)
    {
      if t == [] {
        return None;
      }
      var line := ChooseLine(t, followUp);
      if line.None? {
        return None;
      }
      var decoded := decode(line.value);
      if decoded.None? {
        return None;
      }
      var reply := decoded.value;
      if HasKey(reply, "error") {
        return None;
      }
      if HasKey(reply, "result") {
        failures := 0;
        if monitor != null {
          monitor.LogCallSuccess();
        }
        return JsonRpc.ClassifyReply(reply);
      }
      return Some(List([]));
    }

    /**
     * `call_tool`: rate limiting, the proactive and failure-driven restarts,
     * the health check, one exchange, and the retry helper when the
     * exchange raises. Returns the rate-limiting pause and the retry sleeps
     * besides the result.
     */
    method CallTool(tool: string, now: real, onWindows: bool, spawn: nat -> bool, x: Exchange,
                    retries: nat -> Exchange, decode: string -> Option<Value>)
      returns (r: Option<Value>, rateWait: real, backoffs: seq<nat>)
      modifies this, monitor
      ensures var o := CallToolSpec(cfg, old(State()), tool, now, onWindows, spawn, x, retries, decode);
        State() == o.state && r == o.result && rateWait == o.rateWait && backoffs == o.backoffs
      ensures var o := CallToolSpec(cfg, old(State()), tool, now, onWindows, spawn, x, retries, decode);
        monitor != null ==>
          && monitor.callCount == old(monitor.callCount) + 1
          && monitor.restartCount == old(monitor.restartCount) + o.restarts
          && monitor.successCount == old(monitor.successCount) + (if o.succeeded then 1 else 0)
          && monitor.timeoutCount == old(monitor.timeoutCount) + (if o.timedOut then 1 else 0)
          && monitor.failureCount == old(monitor.failureCount)
    {
      rateWait := RateWait(cfg, lastCallTime, now);
      lastCallTime := now + rateWait;
      calls := calls + 1;
      var launches := PrepareCall(spawn);
      if !IsServerHealthy() {
        failures := failures + 1;
        return None, rateWait, [];
      }
      r, backoffs := SendRequest(tool, onWindows, launches, spawn, x, retries, decode, rateWait);
    }
  }
}
