/**
 * `ProcessRunner` and the watchdog flag of `ProcessMonitor`: one subprocess is launched,
 * its merged output is forwarded line by line while it runs and drained once after it
 * exits, and a deadline (when a positive timeout is configured) marks it timed out.
 *
 * The subprocess and the monitor thread are not executed: what they answer is given as
 * a `ProcessOracle`.
 */
module ProcessRunning {
  import opened Wrappers
  import opened Decimal

  /**
   * What the operating system answers during one `run()`:
   * - `lines[i]` is the result of the i-th `stdout.readline()` and `polls[i]` that of
   *   the `poll()` just after it (`None` while the process is alive);
   * - `rest` is the result of the final `stdout.read()`;
   * - `deadline` is the number of completed polls at the moment the monitor's timed
   *   `acquire` gives up (`None`: it never gives up before being released).
   */
  datatype ProcessOracle = ProcessOracle(
    pid: nat,
    lines: seq<string>,
    polls: seq<Option<int>>,
    rest: string,
    deadline: Option<nat>)

  /** The process exits: one readline per poll, and some poll reports an exit code. */
  predicate Exits(p: ProcessOracle) {
    |p.lines| == |p.polls| && exists i :: 0 <= i < |p.polls| && p.polls[i].Some?
  }

  /** Index of the first poll that reports an exit code. */
  function FirstExit(polls: seq<Option<int>>): (k: nat)
    requires exists i :: 0 <= i < |polls| && polls[i].Some?
    ensures k < |polls| && polls[k].Some?
    ensures forall j :: 0 <= j < k ==> polls[j].None?
  {
    if polls[0].Some? then 0
    else
      var i :| 0 <= i < |polls| && polls[i].Some?;
      assert polls[1..][i - 1].Some?;
      1 + FirstExit(polls[1..])
  }

  function ExitIndex(p: ProcessOracle): nat
    requires Exits(p)
  {
    FirstExit(p.polls)
  }

  /** The exit code `run` reports. */
  function ExitCode(p: ProcessOracle): int
    requires Exits(p)
  {
    p.polls[ExitIndex(p)].value
  }

  /** Everything `run` passes to `handle_output`: each readline up to the exit, then the drain. */
  function Outputs(p: ProcessOracle): seq<string>
    requires Exits(p)
  {
    p.lines[..ExitIndex(p) + 1] + [p.rest]
  }

  /**
   * One effect of `handle_output(output)`: which sink it fed, with the output it was
   * called with. The text the sink receives is `Rendered`.
   */
  datatype Event =
    | Echo(output: string)      // printed to the console
    | LogWrite(output: string)  // written to the log file
    | Handled(output: string)   // passed to the output handler

  /** Which sinks `handle_output` feeds, and the name and pid it tags echoed lines with. */
  datatype Sinks = Sinks(name: string, pid: nat, echo: bool, log: bool, handler: bool)

  /** `output[:-1]` when the output ends in a newline, else the output itself. */
  function StripNewline(output: string): string {
    output[..StrippedLength(output)]
  }

  /** Exactly one trailing newline is removed, and nothing else changes. */
  lemma StripNewlineSpec(output: string)
    ensures |output| > 0 && output[|output| - 1] == '\n' ==> output == StripNewline(output) + "\n"
    ensures !(|output| > 0 && output[|output| - 1] == '\n') ==> StripNewline(output) == output
  {
  }

  function StrippedLength(output: string): nat {
    if |output| > 0 && output[|output| - 1] == '\n' then |output| - 1 else |output|
  }

  /** The console line for `line`: `"[%s:%s]: %s" % (name, str(pid), line)`. */
  function EchoText(s: Sinks, line: string): string {
    "[" + s.name + ":" + Digits(s.pid) + "]: " + line
  }

  /**
   * The effect of `handle_output(output)`: nothing for an empty output; otherwise the
   * console, then the log file, then the handler, each only when that sink is present.
   */
  function OutputEvents(s: Sinks, output: string): seq<Event> {
    if output == "" then []
    else When(s.echo, Echo(output)) + When(s.log, LogWrite(output)) + When(s.handler, Handled(output))
  }

  function When(present: bool, e: Event): seq<Event> {
    if present then [e] else []
  }

  /** The effect of handling `outputs` one after another. */
  function AllEvents(s: Sinks, outputs: seq<string>): seq<Event>
    decreases |outputs|
  {
    if outputs == [] then []
    else AllEvents(s, outputs[..|outputs| - 1]) + OutputEvents(s, outputs[|outputs| - 1])
  }

  lemma AllEventsSnoc(s: Sinks, outputs: seq<string>, output: string)
    ensures AllEvents(s, outputs + [output]) == AllEvents(s, outputs) + OutputEvents(s, output)
  {
    assert (outputs + [output])[..|outputs|] == outputs;
  }

  /** One more output handled extends the events of the outputs before it. */
  lemma AllEventsStep(s: Sinks, start: seq<Event>, outputs: seq<string>, i: nat)
    requires i < |outputs|
    ensures start + AllEvents(s, outputs[..i]) + OutputEvents(s, outputs[i])
            == start + AllEvents(s, outputs[..i + 1])
  {
    assert outputs[..i + 1] == outputs[..i] + [outputs[i]];
    AllEventsSnoc(s, outputs[..i], outputs[i]);
  }

  lemma DrainStep(s: Sinks, start: seq<Event>, read: seq<string>, rest: string, outputs: seq<string>)
    requires outputs == read + [rest]
    ensures start + AllEvents(s, read) + OutputEvents(s, rest) == start + AllEvents(s, outputs)
  {
    AllEventsSnoc(s, read, rest);
  }

  /** The non-empty outputs, in order. */
  function NonEmpty(outputs: seq<string>): (r: seq<string>)
    ensures forall k :: 0 <= k < |r| ==> r[k] != "" && r[k] in outputs
    decreases |outputs|
  {
    if outputs == [] then []
    else
      var last := outputs[|outputs| - 1];
      NonEmpty(outputs[..|outputs| - 1]) + (if last == "" then [] else [last])
  }

  datatype Sink = EchoSink | LogSink | HandlerSink

  predicate Enabled(s: Sinks, sink: Sink) {
    match sink
    case EchoSink => s.echo
    case LogSink => s.log
    case HandlerSink => s.handler
  }

  /** The output one event carries to `sink`, if it is meant for it. */
  function Got(e: Event, sink: Sink): seq<string> {
    match (sink, e)
    case (EchoSink, Echo(o)) => [o]
    case (LogSink, LogWrite(o)) => [o]
    case (HandlerSink, Handled(o)) => [o]
    case _ => []
  }

  /** The outputs `sink` was fed, in order. */
  function Received(events: seq<Event>, sink: Sink): seq<string>
    decreases |events|
  {
    if events == [] then [] else Got(events[0], sink) + Received(events[1..], sink)
  }

  /** The text a sink receives for one output: the line without its newline, rendered for it. */
  function Rendered(s: Sinks, sink: Sink, output: string): string {
    var line := StripNewline(output);
    match sink
    case EchoSink => EchoText(s, line)
    case LogSink => line + "\n"
    case HandlerSink => line
  }

  /** The texts `sink` received: printed lines, log-file lines or handler arguments. */
  function Texts(s: Sinks, events: seq<Event>, sink: Sink): (r: seq<string>)
    ensures |r| == |Received(events, sink)|
    ensures forall k :: 0 <= k < |r| ==> r[k] == Rendered(s, sink, Received(events, sink)[k])
  {
    var got := Received(events, sink);
    seq(|got|, k requires 0 <= k < |got| => Rendered(s, sink, got[k]))
  }

  lemma {:induction false} ReceivedAppend(a: seq<Event>, b: seq<Event>, sink: Sink)
    ensures Received(a + b, sink) == Received(a, sink) + Received(b, sink)
    decreases |a|
  {
    if a == [] {
      assert a + b == b;
    } else {
      assert (a + b)[1..] == a[1..] + b;
      ReceivedAppend(a[1..], b, sink);
    }
  }

  lemma WhenReceived(present: bool, e: Event, rest: seq<Event>, sink: Sink)
    ensures Received(When(present, e) + rest, sink) == (if present then Got(e, sink) else []) + Received(rest, sink)
  {
    if present {
      assert (When(present, e) + rest)[1..] == rest;
    } else {
      assert When(present, e) + rest == rest;
    }
  }

  /** One non-empty output reaches each enabled sink once, and a disabled sink not at all. */
  lemma OutputEventsReceived(s: Sinks, output: string, sink: Sink)
    ensures Received(OutputEvents(s, output), sink)
            == (if Enabled(s, sink) && output != "" then [output] else [])
  {
    if output != "" {
      var e2 := When(s.log, LogWrite(output));
      var e3 := When(s.handler, Handled(output));
      assert OutputEvents(s, output) == When(s.echo, Echo(output)) + (e2 + e3);
      assert e3 == e3 + [];
      WhenReceived(s.echo, Echo(output), e2 + e3, sink);
      WhenReceived(s.log, LogWrite(output), e3, sink);
      WhenReceived(s.handler, Handled(output), [], sink);
      var got := (if s.echo then Got(Echo(output), sink) else [])
                 + ((if s.log then Got(LogWrite(output), sink) else [])
                    + (if s.handler then Got(Handled(output), sink) else []));
      assert Received(OutputEvents(s, output), sink) == got;
      var mine: seq<string> := if Enabled(s, sink) then [output] else [];
      match sink {
        case EchoSink =>
          assert Got(LogWrite(output), sink) == Got(Handled(output), sink) == [];
          assert got == mine + ([] + []);
        case LogSink =>
          assert Got(Echo(output), sink) == Got(Handled(output), sink) == [];
          assert got == [] + (mine + []);
        case HandlerSink =>
          assert Got(Echo(output), sink) == Got(LogWrite(output), sink) == [];
          assert got == [] + ([] + mine);
      }
    }
  }

  /**
   * Every enabled sink is fed every non-empty output, in the order the outputs were
   * read, with no loss and nothing added; a disabled sink is fed nothing.
   */
  lemma {:induction false} SinksReceiveEveryOutput(s: Sinks, outputs: seq<string>, sink: Sink)
    ensures Received(AllEvents(s, outputs), sink) == (if Enabled(s, sink) then NonEmpty(outputs) else [])
    decreases |outputs|
  {
    if outputs != [] {
      var init, last := outputs[..|outputs| - 1], outputs[|outputs| - 1];
      assert AllEvents(s, outputs) == AllEvents(s, init) + OutputEvents(s, last);
      SinksReceiveEveryOutput(s, init, sink);
      ReceivedAppend(AllEvents(s, init), OutputEvents(s, last), sink);
      OutputEventsReceived(s, last, sink);
    }
  }

  /**
   * What the console, the log file and the handler end up with: for the k-th non-empty
   * output, the console shows `[name:pid]: line`, the log file gets `line` and a
   * newline, and the handler is called with `line`, where `line` is that output
   * without its trailing newline.
   */
  lemma SinkTexts(s: Sinks, outputs: seq<string>, sink: Sink, k: int)
    requires Enabled(s, sink) && 0 <= k < |NonEmpty(outputs)|
    ensures |Texts(s, AllEvents(s, outputs), sink)| == |NonEmpty(outputs)|
    ensures Texts(s, AllEvents(s, outputs), sink)[k] == Rendered(s, sink, NonEmpty(outputs)[k])
  {
    SinksReceiveEveryOutput(s, outputs, sink);
  }

  /** The log file: its path and whether it has been closed. */
  datatype LogFile = LogFile(path: string, closed: bool)

  /** The arguments `subprocess.Popen` is called with. */
  datatype Launch = Launch(cmd: string, env: map<string, string>, cwd: Option<string>)

  /** Python truthiness of an optional string: present and non-empty. */
  predicate Truthy(s: Option<string>) {
    s.Some? && s.value != ""
  }

  class ProcessRunner {
    const cmd: string
    const envVars: map<string, string>
    const name: string
    const echoStdout: bool
    const logPath: Option<string>
    const workingDir: Option<string>
    const timeout: int
    const hasOutputHandler: bool

    var returnCode: Option<int>
    var sub: Option<nat>          // pid of the launched subprocess
    var launched: Option<Launch>
    var logFile: Option<LogFile>
    var monitorStarted: bool      // `self.monitor is not None`
    var timedOut: bool
    var events: seq<Event>

    constructor(cmd: string, envVars: map<string, string>, name: string, echoStdout: bool := true,
                logPath: Option<string> := None, workingDir: Option<string> := None,
                timeout: int := -1, hasOutputHandler: bool := false)
      ensures this.cmd == cmd && this.envVars == envVars && this.name == name
      ensures this.echoStdout == echoStdout && this.logPath == logPath && this.workingDir == workingDir
      ensures this.timeout == timeout && this.hasOutputHandler == hasOutputHandler
      ensures returnCode == None && sub == None && launched == None && logFile == None
      ensures !monitorStarted && !timedOut && events == []
    {
      this.cmd, this.envVars, this.name := cmd, envVars, name;
      this.echoStdout, this.logPath, this.workingDir := echoStdout, logPath, workingDir;
      this.timeout, this.hasOutputHandler := timeout, hasOutputHandler;
      returnCode, sub, launched, logFile := None, None, None, None;
      monitorStarted, timedOut, events := false, false, [];
    }

    /** The sinks `handle_output` currently feeds. */
    function CurrentSinks(): Sinks
      reads this`sub, this`logFile
      requires sub.Some?
    {
      Sinks(name, sub.value, echoStdout, logFile.Some?, hasOutputHandler)
    }

    /** `handle_output`: forwards one output to the sinks, in the fixed order. */
    method HandleOutput(output: string)
      requires sub.Some?
      modifies this`events
      ensures events == old(events) + OutputEvents(CurrentSinks(), output)
    {
      if output != "" {
        if echoStdout {
          events := events + [Echo(output)];
        }
        if logFile.Some? {
          events := events + [LogWrite(output)];
        }
        if hasOutputHandler {
          events := events + [Handled(output)];
        }
      }
    }

    /**
     * `timeout_if_not_complete`, called by the monitor when its deadline passes: once
     * an exit code has been recorded nothing changes, otherwise the run is marked as
     * timed out (the process-group signals that follow are not modelled).
     */
    method TimeoutIfNotComplete()
      modifies this`timedOut
      ensures returnCode.Some? ==> timedOut == old(timedOut)
      ensures returnCode.None? ==> timedOut
    {
      if returnCode.None? {
        timedOut := true;
      }
    }

    /**
     * One turn of the loop in `run`: the deadline may pass while the line is being
     * read, then the line is handled and the process polled.
     */
    method PollRound(p: ProcessOracle, i: nat, ghost sinks: Sinks)
      requires sub.Some? && i < |p.lines| && i < |p.polls| && sinks == CurrentSinks()
      modifies this`events, this`timedOut, this`returnCode
      ensures events == old(events) + OutputEvents(sinks, p.lines[i])
      ensures returnCode == p.polls[i]
      ensures timedOut == (old(timedOut) || (monitorStarted && p.deadline == Some(i) && old(returnCode).None?))
    {
      if monitorStarted && p.deadline == Some(i) {
        TimeoutIfNotComplete();
      }
      HandleOutput(p.lines[i]);
      returnCode := p.polls[i];
    }

    /**
     * The loop of `run`: reads and polls until a poll reports an exit code. The
     * deadline, when it passes during the loop, marks the run as timed out.
     */
    method Pump(p: ProcessOracle, k: nat)
      requires |p.lines| == |p.polls| && k < |p.polls| && p.polls[k].Some?
      requires forall j :: 0 <= j < k ==> p.polls[j].None?
      requires sub.Some? && returnCode.None? && !timedOut
      modifies this`events, this`timedOut, this`returnCode
      ensures returnCode == p.polls[k]
      ensures events == old(events) + AllEvents(CurrentSinks(), p.lines[..k + 1])
      ensures timedOut <==> monitorStarted && p.deadline.Some? && p.deadline.value <= k
    {
      ghost var sinks := CurrentSinks();
      var i := 0;
      while returnCode.None?
        invariant 0 <= i <= k + 1
        invariant i <= k ==> returnCode.None?
        invariant i == k + 1 ==> returnCode == p.polls[k]
        invariant events == old(events) + AllEvents(sinks, p.lines[..i])
        invariant timedOut == (monitorStarted && p.deadline.Some? && p.deadline.value < i)
        decreases k + 1 - i
      {
        PollRound(p, i, sinks);
        AllEventsStep(sinks, old(events), p.lines, i);
        i := i + 1;
      }
    }

    /** The final `stdout.read()` after the exit, handled like every other output. */
    method Drain(rest: string, ghost sinks: Sinks, ghost start: seq<Event>, ghost read: seq<string>)
      requires sub.Some? && sinks == CurrentSinks() && events == start + AllEvents(sinks, read)
      modifies this`events
      ensures events == start + AllEvents(sinks, read + [rest])
    {
      HandleOutput(rest);
      DrainStep(sinks, start, read, rest, read + [rest]);
    }

    /** The start of `run`: the log file is opened, the monitor started, the process launched. */
    method Start(pid: nat)
      modifies this`logFile, this`monitorStarted, this`sub, this`launched
      ensures logFile == (if Truthy(logPath) then Some(LogFile(logPath.value, false)) else old(logFile))
      ensures monitorStarted == (old(monitorStarted) || timeout > 0)
      ensures sub == Some(pid) && launched == Some(Launch(cmd, envVars, workingDir))
    {
      if Truthy(logPath) {
        logFile := Some(LogFile(logPath.value, false));
      }
      if timeout > 0 {
        monitorStarted := true;
      }
      sub := Some(pid);
      launched := Some(Launch(cmd, envVars, workingDir));
    }

    /**
     * `run`: opens the log file when a log path is set, starts the monitor when the
     * timeout is positive, launches the process, handles every readline result until a
     * poll reports an exit code and then the final drain, closes the log file, and
     * returns `(returncode, timed_out)`.
     */
    method Run(p: ProcessOracle) returns (code: int, wasTimedOut: bool)
      requires Exits(p)
      requires returnCode.None? && !timedOut && !monitorStarted
      modifies this
      ensures code == ExitCode(p) && returnCode == Some(code)
      ensures wasTimedOut == timedOut
      ensures timedOut <==> timeout > 0 && p.deadline.Some? && p.deadline.value <= ExitIndex(p)
      ensures monitorStarted <==> timeout > 0
      ensures sub == Some(p.pid) && launched == Some(Launch(cmd, envVars, workingDir))
      ensures events == old(events)
                        + AllEvents(Sinks(name, p.pid, echoStdout, Truthy(logPath) || old(logFile).Some?,
                                          hasOutputHandler), Outputs(p))
      ensures Truthy(logPath) ==> logFile == Some(LogFile(logPath.value, true))
      ensures !Truthy(logPath) ==> logFile == old(logFile)
    {
      Start(p.pid);
      ghost var sinks := CurrentSinks();
      var k := ExitIndex(p);
      Pump(p, k);
      if monitorStarted && p.deadline.Some? && p.deadline.value > k {
        // The deadline passed after the exit: the callback finds the exit code recorded.
        TimeoutIfNotComplete();
      }
      Drain(p.rest, sinks, old(events), p.lines[..k + 1]);
      assert Outputs(p) == p.lines[..k + 1] + [p.rest];
      if Truthy(logPath) {
        logFile := Some(LogFile(logPath.value, true));
      }
      code := returnCode.value;
      wasTimedOut := timedOut;
    }
  }
}
