/** The backend's monitors and container discovery (src/backend/mod.rs).
    Each monitor is a sequential producer: the D-Bus proxies, the journalctl
    child process and the directory listing are replaced by their outcomes,
    given as inputs. */
module Backend {
  import opened Errors
  import opened Messages
  import opened BackendUtils
  import opened StringOrder

  const StatusContext: string := "Failed to set up status monitoring"
  const LogContext: string := "Failed to set up log monitoring"

  // ------------------------------------------------------------------
  // Status monitor
  // ------------------------------------------------------------------

  /** Outcomes of the three setup steps of the status monitor, in the order
      they run: connecting to the systemd manager, `load_unit` of the
      container's service name, and connecting to the unit object. */
  datatype StatusSetup = StatusSetup(manager: Result<()>, unitPath: Result<()>, unitObject: Result<()>)

  predicate SetupSucceeds(setup: StatusSetup)
  {
    setup.manager.Ok? && setup.unitPath.Ok? && setup.unitObject.Ok?
  }

  /** The state-change loop over the fetched `ActiveState` values: one
      `State` per recognised token; a failed fetch or an unknown token ends
      the loop with an error; the end of the stream ends it cleanly. */
  function StatusLoop(c: string, stream: seq<Result<string>>): (r: Trace)
    ensures r.result.Ok? ==> |r.events| == |stream|
    ensures r.result.Err? ==> |r.events| < |stream|
    decreases |stream|
  {
    if |stream| == 0 then Trace([], Ok(()))
    else
      match Context(stream[0], "Failed to get updated state")
      case Err(e) => Trace([], Err(e))
      case Ok(token) =>
        match FromSystemd(token)
        case Err(e) => Trace([], Err(e))
        case Ok(state) =>
          var rest := StatusLoop(c, stream[1..]);
          Trace([NamedUpdate(c, State(state))] + rest.events, rest.result)
  }

  /** The body of `monitor_container_status`. */
  function StatusTrace(c: string, setup: StatusSetup, stream: seq<Result<string>>): (r: Trace)
    ensures |r.events| >= 1 && r.events[0] == NamedUpdate(c, Log("Connecting to systemd"))
    ensures !SetupSucceeds(setup) ==> |r.events| == 1 && r.result.Err?
    ensures SetupSucceeds(setup) ==> |r.events| >= 2 && r.events[1] == NamedUpdate(c, Log("Monitoring"))
  {
    var connecting := [NamedUpdate(c, Log("Connecting to systemd"))];
    if setup.manager.Err? then
      Trace(connecting, Context(setup.manager, "Failed to connect to systemd manager"))
    else if setup.unitPath.Err? then
      Trace(connecting, Context(setup.unitPath, "Failed to get unit path"))
    else if setup.unitObject.Err? then
      Trace(connecting, Context(setup.unitObject, "Failed to connect to unit object"))
    else
      var loop := StatusLoop(c, stream);
      Trace(connecting + [NamedUpdate(c, Log("Monitoring"))] + loop.events, loop.result)
  }

  /** Everything `monitor_container_status` sends, its report included. */
  function StatusEvents(c: string, setup: StatusSetup, stream: seq<Result<string>>): seq<NamedUpdate>
  {
    Reported(c, StatusContext, StatusTrace(c, setup, stream))
  }

  /** The body of `monitor_container_status`, sending as it goes. The unit
      that `load_unit` is asked for is `ServiceName(c)`; `setup.unitPath` is
      the outcome of that call. */
  method StatusMonitorBody(ch: Channel, c: string, setup: StatusSetup, stream: seq<Result<string>>)
    returns (result: Result<()>)
    requires ch.open
    modifies ch
    ensures ch.queue == old(ch.queue) + StatusTrace(c, setup, stream).events
    ensures result == StatusTrace(c, setup, stream).result
    ensures ch.open
  {
    LogMessage(ch, c, "Connecting to systemd");
    if setup.manager.Err? {
      return Context(setup.manager, "Failed to connect to systemd manager");
    }
    if setup.unitPath.Err? {
      return Context(setup.unitPath, "Failed to get unit path");
    }
    if setup.unitObject.Err? {
      return Context(setup.unitObject, "Failed to connect to unit object");
    }
    LogMessage(ch, c, "Monitoring");
    result := ForwardStates(ch, c, stream);
  }

  /** The `while let` loop of `monitor_container_status`: decode each
      fetched state and send it, stopping at the first error. */
  method ForwardStates(ch: Channel, c: string, stream: seq<Result<string>>) returns (result: Result<()>)
    requires ch.open
    modifies ch
    ensures ch.queue == old(ch.queue) + StatusLoop(c, stream).events
    ensures result == StatusLoop(c, stream).result
    ensures ch.open
  {
    ghost var sent := [];
    var i := 0;
    while i < |stream|
      invariant 0 <= i <= |stream|
      invariant ch.open && ch.queue == old(ch.queue) + sent
      invariant StatusLoop(c, stream).events == sent + StatusLoop(c, stream[i..]).events
      invariant StatusLoop(c, stream).result == StatusLoop(c, stream[i..]).result
    {
      StatusLoopStep(c, stream, i);
      var fetched := Context(stream[i], "Failed to get updated state");
      if fetched.Err? {
        return Err(fetched.error);
      }
      var decoded := FromSystemd(fetched.value);
      if decoded.Err? {
        return Err(decoded.error);
      }
      var update := NamedUpdate(c, State(decoded.value));
      assert (sent + [update]) + StatusLoop(c, stream[i + 1..]).events ==
        sent + ([update] + StatusLoop(c, stream[i + 1..]).events);
      ch.Send(update);
      sent := sent + [update];
      i := i + 1;
    }
    return Ok(());
  }

  /** One step of the state-change loop, at position `i` of the stream. */
  lemma StatusLoopStep(c: string, stream: seq<Result<string>>, i: nat)
    requires i < |stream|
    ensures stream[i].Err? ==> StatusLoop(c, stream[i..]) == Trace([], Err(["Failed to get updated state"] + stream[i].error))
    ensures stream[i].Ok? && FromSystemd(stream[i].value).Err? ==>
      StatusLoop(c, stream[i..]) == Trace([], Err(FromSystemd(stream[i].value).error))
    ensures stream[i].Ok? && FromSystemd(stream[i].value).Ok? ==>
      StatusLoop(c, stream[i..]) ==
        Trace([NamedUpdate(c, State(FromSystemd(stream[i].value).value))] + StatusLoop(c, stream[i + 1..]).events,
              StatusLoop(c, stream[i + 1..]).result)
  {
    assert stream[i..][0] == stream[i] && stream[i..][1..] == stream[i + 1..];
  }

  /** `monitor_container_status`: the body, reported by `report_async!`. */
  method MonitorContainerStatus(ch: Channel, c: string, setup: StatusSetup, stream: seq<Result<string>>)
    requires ch.open
    modifies ch
    ensures ch.queue == old(ch.queue) + StatusEvents(c, setup, stream)
    ensures ch.open
  {
    var result := StatusMonitorBody(ch, c, setup, stream);
    ReportAsync(ch, c, StatusContext, result);
    ReportedAppends(c, StatusContext, StatusTrace(c, setup, stream));
  }

  /** The loop only sends `State` updates for its container, at most one per
      stream item. */
  lemma {:induction false} StatusLoopSendsStates(c: string, stream: seq<Result<string>>)
    ensures |StatusLoop(c, stream).events| <= |stream|
    ensures forall i :: 0 <= i < |StatusLoop(c, stream).events| ==>
      StatusLoop(c, stream).events[i].containerName == c && StatusLoop(c, stream).events[i].inner.State?
    decreases |stream|
  {
    if |stream| > 0 && stream[0].Ok? && FromSystemd(stream[0].value).Ok? {
      StatusLoopSendsStates(c, stream[1..]);
    }
  }

  /** The order of the status monitor's updates: it starts with
      "Connecting to systemd"; every update names its container; no `State`
      comes before "Monitoring"; an `Error` can only be the last update,
      and is there exactly when the body failed. */
  lemma StatusEventsShape(c: string, setup: StatusSetup, stream: seq<Result<string>>)
    ensures var ev := StatusEvents(c, setup, stream);
      |ev| >= 2 &&
      ev[0] == NamedUpdate(c, Log("Connecting to systemd")) &&
      AllTagged(c, ev) &&
      (forall i :: 0 <= i < |ev| && ev[i].inner.State? ==> 2 <= i && ev[1] == NamedUpdate(c, Log("Monitoring"))) &&
      (forall i :: 0 <= i < |ev| && ev[i].inner.Error? ==> i == |ev| - 1) &&
      (ev[|ev| - 1].inner.Error? <==> StatusTrace(c, setup, stream).result.Err?)
  {
    StatusLoopSendsStates(c, stream);
  }

  /** A failed setup step sends no "Monitoring" and exactly one `Error`,
      carrying the step's context under the monitor's. */
  lemma StatusSetupFailure(c: string, setup: StatusSetup, stream: seq<Result<string>>)
    ensures setup.manager.Err? ==>
      StatusEvents(c, setup, stream) ==
        [NamedUpdate(c, Log("Connecting to systemd")),
         NamedUpdate(c, Error([StatusContext, "Failed to connect to systemd manager"] + setup.manager.error))]
    ensures setup.manager.Ok? && setup.unitPath.Err? ==>
      StatusEvents(c, setup, stream) ==
        [NamedUpdate(c, Log("Connecting to systemd")),
         NamedUpdate(c, Error([StatusContext, "Failed to get unit path"] + setup.unitPath.error))]
    ensures setup.manager.Ok? && setup.unitPath.Ok? && setup.unitObject.Err? ==>
      StatusEvents(c, setup, stream) ==
        [NamedUpdate(c, Log("Connecting to systemd")),
         NamedUpdate(c, Error([StatusContext, "Failed to connect to unit object"] + setup.unitObject.error))]
  {
    var connecting := NamedUpdate(c, Log("Connecting to systemd"));
    if setup.manager.Err? {
      SetupStepFails(c, StatusContext, connecting, "Failed to connect to systemd manager", setup.manager.error);
    } else if setup.unitPath.Err? {
      SetupStepFails(c, StatusContext, connecting, "Failed to get unit path", setup.unitPath.error);
    } else if setup.unitObject.Err? {
      SetupStepFails(c, StatusContext, connecting, "Failed to connect to unit object", setup.unitObject.error);
    }
  }

  /** A body that fails after its first log line is reported as that line
      and one `Error` with both contexts. */
  lemma SetupStepFails(c: string, context: string, first: NamedUpdate, step: string, e: ErrorChain)
    ensures Reported(c, context, Trace([first], Context<()>(Err(e), step))) ==
      [first, NamedUpdate(c, Error([context, step] + e))]
  {
    assert [context] + ([step] + e) == [context, step] + e;
  }

  /** A stream whose fetches all return the given tokens. */
  function Fetched(tokens: seq<string>): seq<Result<string>>
  {
    if |tokens| == 0 then [] else [Ok(tokens[0])] + Fetched(tokens[1..])
  }

  predicate Recognized(tokens: seq<string>)
  {
    forall i :: 0 <= i < |tokens| ==> tokens[i] in SystemdTokens
  }

  /** One `State` update per token, in token order. */
  function StateUpdates(c: string, tokens: seq<string>): seq<NamedUpdate>
    requires Recognized(tokens)
  {
    if |tokens| == 0 then []
    else [NamedUpdate(c, State(FromSystemd(tokens[0]).value))] + StateUpdates(c, tokens[1..])
  }

  /** A run of recognised tokens sends one `State` each, in order, and then
      the loop carries on with what follows. */
  lemma {:induction false} StatusLoopRecognized(c: string, tokens: seq<string>, tail: seq<Result<string>>)
    requires Recognized(tokens)
    ensures StatusLoop(c, Fetched(tokens) + tail) ==
      Trace(StateUpdates(c, tokens) + StatusLoop(c, tail).events, StatusLoop(c, tail).result)
    decreases |tokens|
  {
    if |tokens| == 0 {
      assert Fetched(tokens) + tail == tail;
    } else {
      var rest := Fetched(tokens[1..]) + tail;
      assert Fetched(tokens) + tail == [Ok(tokens[0])] + rest;
      StatusLoopCons(c, tokens[0], rest);
      StatusLoopRecognized(c, tokens[1..], tail);
      var x, more := NamedUpdate(c, State(FromSystemd(tokens[0]).value)), StateUpdates(c, tokens[1..]);
      assert StateUpdates(c, tokens) == [x] + more;
      assert [x] + (more + StatusLoop(c, tail).events) == ([x] + more) + StatusLoop(c, tail).events;
    }
  }

  /** A recognised token at the head of the stream sends its state and the
      loop goes on with the rest. */
  lemma StatusLoopCons(c: string, token: string, rest: seq<Result<string>>)
    requires token in SystemdTokens
    ensures StatusLoop(c, [Ok(token)] + rest) ==
      Trace([NamedUpdate(c, State(FromSystemd(token).value))] + StatusLoop(c, rest).events, StatusLoop(c, rest).result)
  {
    var s := [Ok(token)] + rest;
    assert s[0] == Ok(token) && s[1..] == rest;
  }

  /** A stream of recognised tokens that ends: "Connecting to systemd",
      "Monitoring", then one `State` per token in order, and no `Error`. */
  lemma StatusRecognizedStream(c: string, setup: StatusSetup, tokens: seq<string>)
    requires SetupSucceeds(setup) && Recognized(tokens)
    ensures StatusEvents(c, setup, Fetched(tokens)) ==
      [NamedUpdate(c, Log("Connecting to systemd")), NamedUpdate(c, Log("Monitoring"))] + StateUpdates(c, tokens)
  {
    StatusLoopRecognized(c, tokens, []);
    assert Fetched(tokens) + [] == Fetched(tokens);
  }

  /** A failed fetch or an unrecognised token ends the monitor: exactly one
      `Error` follows the updates before it, and nothing after it in the
      stream has any effect. */
  lemma StatusStopsAtFailure(c: string, setup: StatusSetup, tokens: seq<string>, bad: Result<string>, rest: seq<Result<string>>)
    requires Recognized(tokens)
    requires !(bad.Ok? && bad.value in SystemdTokens)
    ensures StatusEvents(c, setup, Fetched(tokens) + [bad] + rest) == StatusEvents(c, setup, Fetched(tokens) + [bad])
    ensures SetupSucceeds(setup) ==>
      StatusEvents(c, setup, Fetched(tokens) + [bad] + rest) ==
        [NamedUpdate(c, Log("Connecting to systemd")), NamedUpdate(c, Log("Monitoring"))] + StateUpdates(c, tokens) +
        [NamedUpdate(c, Error([StatusContext] + StatusFailure(bad)))]
  {
    var long, short := Fetched(tokens) + [bad] + rest, Fetched(tokens) + [bad];
    StatusLoopStopsAt(c, tokens, bad, rest);
    StatusLoopStopsAt(c, tokens, bad, []);
    assert short + [] == short;
    StatusEventsAfterSetup(c, setup, long);
    StatusEventsAfterSetup(c, setup, short);
  }

  /** Once set up, the status monitor sends its two log lines and then
      whatever the reported loop sends; the stream matters only through the
      loop. */
  lemma StatusEventsAfterSetup(c: string, setup: StatusSetup, stream: seq<Result<string>>)
    ensures SetupSucceeds(setup) ==>
      StatusEvents(c, setup, stream) ==
        [NamedUpdate(c, Log("Connecting to systemd")), NamedUpdate(c, Log("Monitoring"))] +
        Reported(c, StatusContext, StatusLoop(c, stream))
    ensures !SetupSucceeds(setup) ==> StatusEvents(c, setup, stream) == StatusEvents(c, setup, [])
  {
  }

  /** The error chain a failing stream item ends the loop with. */
  function StatusFailure(bad: Result<string>): ErrorChain
  {
    if bad.Err? then ["Failed to get updated state"] + bad.error
    else ["Unrecognized unit status " + bad.value]
  }

  /** After a run of recognised tokens, a failing item ends the loop with
      the updates so far and that item's error. */
  lemma StatusLoopStopsAt(c: string, tokens: seq<string>, bad: Result<string>, rest: seq<Result<string>>)
    requires Recognized(tokens)
    requires !(bad.Ok? && bad.value in SystemdTokens)
    ensures StatusLoop(c, Fetched(tokens) + [bad] + rest) == Trace(StateUpdates(c, tokens), Err(StatusFailure(bad)))
  {
    assert Fetched(tokens) + [bad] + rest == Fetched(tokens) + ([bad] + rest);
    StatusLoopRecognized(c, tokens, [bad] + rest);
    StatusLoopFailsAt(c, bad, rest);
    assert StateUpdates(c, tokens) + [] == StateUpdates(c, tokens);
  }

  /** A failing item ends the loop at once, whatever follows it. */
  lemma StatusLoopFailsAt(c: string, bad: Result<string>, rest: seq<Result<string>>)
    requires !(bad.Ok? && bad.value in SystemdTokens)
    ensures StatusLoop(c, [bad] + rest) == Trace([], Err(StatusFailure(bad)))
  {
    assert ([bad] + rest)[0] == bad;
  }

  /** Ordering: activating, active, deactivating, inactive are reported as
      Starting, Up, Stopping, Down, in that order. */
  lemma StatusExample(c: string, setup: StatusSetup)
    requires SetupSucceeds(setup)
    ensures StatusEvents(c, setup, Fetched(["activating", "active", "deactivating", "inactive"])) ==
      [NamedUpdate(c, Log("Connecting to systemd")), NamedUpdate(c, Log("Monitoring")),
       NamedUpdate(c, State(Starting)), NamedUpdate(c, State(Up)),
       NamedUpdate(c, State(Stopping)), NamedUpdate(c, State(Down))]
  {
    var tokens := ["activating", "active", "deactivating", "inactive"];
    StatusRecognizedStream(c, setup, tokens);
  }

  /** An unknown token after two good ones: two `State`s, one `Error`, and
      the token after it is never looked at. */
  lemma StatusBogusExample(c: string, setup: StatusSetup)
    requires SetupSucceeds(setup)
    ensures StatusEvents(c, setup, Fetched(["active", "inactive"]) + [Ok("bogus"), Ok("active")]) ==
      [NamedUpdate(c, Log("Connecting to systemd")), NamedUpdate(c, Log("Monitoring")),
       NamedUpdate(c, State(Up)), NamedUpdate(c, State(Down)),
       NamedUpdate(c, Error([StatusContext, "Unrecognized unit status bogus"]))]
  {
    StatusStopsAtFailure(c, setup, ["active", "inactive"], Ok("bogus"), [Ok("active")]);
    assert StatusFailure(Ok("bogus")) == ["Unrecognized unit status bogus"] by {
      assert "Unrecognized unit status " + "bogus" == "Unrecognized unit status bogus";
    }
    assert Fetched(["active", "inactive"]) + [Ok("bogus"), Ok("active")] ==
      Fetched(["active", "inactive"]) + [Ok("bogus")] + [Ok("active")];
    assert FromSystemd("active") == Ok(Up) && FromSystemd("inactive") == Ok(Down);
    assert ["active", "inactive"][1..] == ["inactive"] && ["inactive"][1..] == [];
    assert StateUpdates(c, ["inactive"]) == [NamedUpdate(c, State(Down))] + StateUpdates(c, []);
    assert StateUpdates(c, ["active", "inactive"]) == [NamedUpdate(c, State(Up))] + StateUpdates(c, ["inactive"]);
    assert StateUpdates(c, ["active", "inactive"]) == [NamedUpdate(c, State(Up)), NamedUpdate(c, State(Down))];
    assert [StatusContext] + StatusFailure(Ok("bogus")) == [StatusContext, "Unrecognized unit status bogus"];
  }

  // ------------------------------------------------------------------
  // Log monitor
  // ------------------------------------------------------------------

  /** The command line of the log follower for container `c`. */
  function JournalctlArgs(c: string): (args: seq<string>)
    ensures |args| == 4 && args[..3] == ["--no-hostname", "--follow", "--unit"]
    ensures args[3] == ServiceName(c) && args[3][10..|args[3]| - 8] == c
  {
    ["--no-hostname", "--follow", "--unit", ServiceName(c)]
  }

  /** Distinct containers get distinct journalctl argument lists. */
  lemma JournalctlArgsInjective(a: string, b: string)
    requires JournalctlArgs(a) == JournalctlArgs(b)
    ensures a == b
  {
    assert JournalctlArgs(a)[3] == JournalctlArgs(b)[3];
    ServiceNameInjective(a, b);
  }

  /** The line-reading loop over the results of `next_line`: `Ok(Some(line))`
      sends the line, `Ok(None)` is the end of the output and ends the loop
      cleanly, an `Err` ends it with an error. Running out of input is read
      as the end of the output. */
  function LogLoop(c: string, output: seq<Result<Option<string>>>): (r: Trace)
    ensures |r.events| <= |output|
    ensures r.result.Err? ==> |r.events| < |output|
    decreases |output|
  {
    if |output| == 0 then Trace([], Ok(()))
    else
      var next := Context(output[0], "Failed to read log line");
      if next.Err? then Trace([], Err(next.error))
      else if next.value.None? then Trace([], Ok(()))
      else
        var rest := LogLoop(c, output[1..]);
        Trace([NamedUpdate(c, ContainerLog(next.value.value))] + rest.events, rest.result)
  }

  /** The body of `monitor_container_log`; `spawn` is the outcome of
      starting journalctl with `JournalctlArgs(c)`. */
  function LogTrace(c: string, spawn: Result<()>, output: seq<Result<Option<string>>>): (r: Trace)
    ensures |r.events| >= 1 && r.events[0] == NamedUpdate(c, Log("Requesting logs"))
    ensures spawn.Err? ==> |r.events| == 1 && r.result.Err?
    ensures spawn.Ok? ==> |r.events| >= 2 && r.events[1] == NamedUpdate(c, Log("Reading logs"))
  {
    var requesting := [NamedUpdate(c, Log("Requesting logs"))];
    if spawn.Err? then
      Trace(requesting, Context(spawn, "Failed to spawn journalctl"))
    else
      var loop := LogLoop(c, output);
      Trace(requesting + [NamedUpdate(c, Log("Reading logs"))] + loop.events, loop.result)
  }

  /** Everything `monitor_container_log` sends, its report included. */
  function LogEvents(c: string, spawn: Result<()>, output: seq<Result<Option<string>>>): seq<NamedUpdate>
  {
    Reported(c, LogContext, LogTrace(c, spawn, output))
  }

  /** The body of `monitor_container_log`, sending as it goes. */
  method LogMonitorBody(ch: Channel, c: string, spawn: Result<()>, output: seq<Result<Option<string>>>)
    returns (result: Result<()>)
    requires ch.open
    modifies ch
    ensures ch.queue == old(ch.queue) + LogTrace(c, spawn, output).events
    ensures result == LogTrace(c, spawn, output).result
    ensures ch.open
  {
    LogMessage(ch, c, "Requesting logs");
    if spawn.Err? {
      return Context(spawn, "Failed to spawn journalctl");
    }
    LogMessage(ch, c, "Reading logs");
    result := ForwardLines(ch, c, output);
  }

  /** The `while let` loop of `monitor_container_log`: send each line read,
      stopping at the end of the output or at the first read error. */
  method ForwardLines(ch: Channel, c: string, output: seq<Result<Option<string>>>) returns (result: Result<()>)
    requires ch.open
    modifies ch
    ensures ch.queue == old(ch.queue) + LogLoop(c, output).events
    ensures result == LogLoop(c, output).result
    ensures ch.open
  {
    ghost var sent := [];
    var i := 0;
    while i < |output|
      invariant 0 <= i <= |output|
      invariant ch.open && ch.queue == old(ch.queue) + sent
      invariant LogLoop(c, output).events == sent + LogLoop(c, output[i..]).events
      invariant LogLoop(c, output).result == LogLoop(c, output[i..]).result
    {
      LogLoopStep(c, output, i);
      var next := Context(output[i], "Failed to read log line");
      if next.Err? {
        return Err(next.error);
      }
      if next.value.None? {
        break;
      }
      var update := NamedUpdate(c, ContainerLog(next.value.value));
      assert (sent + [update]) + LogLoop(c, output[i + 1..]).events ==
        sent + ([update] + LogLoop(c, output[i + 1..]).events);
      ch.Send(update);
      sent := sent + [update];
      i := i + 1;
    }
    return Ok(());
  }

  /** One step of the line-reading loop, at position `i` of the output. */
  lemma LogLoopStep(c: string, output: seq<Result<Option<string>>>, i: nat)
    requires i < |output|
    ensures output[i].Err? ==> LogLoop(c, output[i..]) == Trace([], Err(["Failed to read log line"] + output[i].error))
    ensures output[i] == Ok(None) ==> LogLoop(c, output[i..]) == Trace([], Ok(()))
    ensures output[i].Ok? && output[i].value.Some? ==>
      LogLoop(c, output[i..]) ==
        Trace([NamedUpdate(c, ContainerLog(output[i].value.value))] + LogLoop(c, output[i + 1..]).events,
              LogLoop(c, output[i + 1..]).result)
  {
    assert output[i..][0] == output[i] && output[i..][1..] == output[i + 1..];
  }

  /** `monitor_container_log`: the body, reported by `report_async!`. */
  method MonitorContainerLog(ch: Channel, c: string, spawn: Result<()>, output: seq<Result<Option<string>>>)
    requires ch.open
    modifies ch
    ensures ch.queue == old(ch.queue) + LogEvents(c, spawn, output)
    ensures ch.open
  {
    var result := LogMonitorBody(ch, c, spawn, output);
    ReportAsync(ch, c, LogContext, result);
    ReportedAppends(c, LogContext, LogTrace(c, spawn, output));
  }

  /** The loop only sends `ContainerLog` updates for its container, at most
      one per read. */
  lemma {:induction false} LogLoopSendsLines(c: string, output: seq<Result<Option<string>>>)
    ensures |LogLoop(c, output).events| <= |output|
    ensures forall i :: 0 <= i < |LogLoop(c, output).events| ==>
      LogLoop(c, output).events[i].containerName == c && LogLoop(c, output).events[i].inner.ContainerLog?
    decreases |output|
  {
    if |output| > 0 && output[0].Ok? && output[0].value.Some? {
      LogLoopSendsLines(c, output[1..]);
    }
  }

  /** The order of the log monitor's updates: it starts with "Requesting
      logs"; every update names its container; no line comes before
      "Reading logs"; an `Error` can only be the last update, and is there
      exactly when the body failed. */
  lemma LogEventsShape(c: string, spawn: Result<()>, output: seq<Result<Option<string>>>)
    ensures var ev := LogEvents(c, spawn, output);
      |ev| >= 2 &&
      ev[0] == NamedUpdate(c, Log("Requesting logs")) &&
      AllTagged(c, ev) &&
      (forall i :: 0 <= i < |ev| && ev[i].inner.ContainerLog? ==> 2 <= i && ev[1] == NamedUpdate(c, Log("Reading logs"))) &&
      (forall i :: 0 <= i < |ev| && ev[i].inner.Error? ==> i == |ev| - 1) &&
      (ev[|ev| - 1].inner.Error? <==> LogTrace(c, spawn, output).result.Err?)
  {
    LogLoopSendsLines(c, output);
  }

  /** Failing to start journalctl: one `Error` after "Requesting logs". */
  lemma LogSpawnFailure(c: string, spawn: Result<()>, output: seq<Result<Option<string>>>)
    requires spawn.Err?
    ensures LogEvents(c, spawn, output) ==
      [NamedUpdate(c, Log("Requesting logs")),
       NamedUpdate(c, Error([LogContext, "Failed to spawn journalctl"] + spawn.error))]
  {
    SetupStepFails(c, LogContext, NamedUpdate(c, Log("Requesting logs")), "Failed to spawn journalctl", spawn.error);
  }

  /** Reads that each return the given lines. */
  function Lines(lines: seq<string>): seq<Result<Option<string>>>
  {
    seq(|lines|, i requires 0 <= i < |lines| => Ok(Some(lines[i])))
  }

  /** One `ContainerLog` update per line, in line order. */
  function LineUpdates(c: string, lines: seq<string>): seq<NamedUpdate>
  {
    seq(|lines|, i requires 0 <= i < |lines| => NamedUpdate(c, ContainerLog(lines[i])))
  }

  /** A run of lines is sent one by one, in order, and then the loop carries
      on with what follows. */
  lemma {:induction false} LogLoopLines(c: string, lines: seq<string>, tail: seq<Result<Option<string>>>)
    ensures LogLoop(c, Lines(lines) + tail) ==
      Trace(LineUpdates(c, lines) + LogLoop(c, tail).events, LogLoop(c, tail).result)
    decreases |lines|
  {
    if |lines| == 0 {
      assert Lines(lines) + tail == tail;
      assert LineUpdates(c, lines) == [];
    } else {
      var s := Lines(lines) + tail;
      assert s[0] == Ok(Some(lines[0]));
      assert s[1..] == Lines(lines[1..]) + tail;
      LogLoopLines(c, lines[1..], tail);
      assert LineUpdates(c, lines) == [NamedUpdate(c, ContainerLog(lines[0]))] + LineUpdates(c, lines[1..]);
    }
  }

  /** Lines followed by the end of the output: "Requesting logs", "Reading
      logs", one `ContainerLog` per line in order, and nothing else, whatever
      would have come after the end. */
  lemma LogLinesThenEnd(c: string, spawn: Result<()>, lines: seq<string>, rest: seq<Result<Option<string>>>)
    requires spawn.Ok?
    ensures LogEvents(c, spawn, Lines(lines) + [Ok(None)] + rest) ==
      [NamedUpdate(c, Log("Requesting logs")), NamedUpdate(c, Log("Reading logs"))] + LineUpdates(c, lines)
  {
    LogLoopLines(c, lines, [Ok(None)] + rest);
    assert Lines(lines) + [Ok(None)] + rest == Lines(lines) + ([Ok(None)] + rest);
  }

  /** A read error ends the log monitor: exactly one `Error`, after the
      lines read before it, and nothing later is read. */
  lemma LogReadErrorIsFinal(c: string, spawn: Result<()>, lines: seq<string>, e: ErrorChain, rest: seq<Result<Option<string>>>)
    requires spawn.Ok?
    ensures LogEvents(c, spawn, Lines(lines) + [Err(e)] + rest) ==
      [NamedUpdate(c, Log("Requesting logs")), NamedUpdate(c, Log("Reading logs"))] + LineUpdates(c, lines) +
      [NamedUpdate(c, Error([LogContext, "Failed to read log line"] + e))]
  {
    LogLoopLines(c, lines, [Err(e)] + rest);
    assert Lines(lines) + [Err(e)] + rest == Lines(lines) + ([Err(e)] + rest);
    assert ([Err(e)] + rest)[0] == Err(e);
    assert LogLoop(c, [Err(e)] + rest) == Trace([], Err(["Failed to read log line"] + e));
    assert [LogContext] + (["Failed to read log line"] + e) == [LogContext, "Failed to read log line"] + e;
  }

  /** "hello" and "world", then the end of the output: exactly two lines. */
  lemma LogExample(c: string)
    ensures LogEvents(c, Ok(()), Lines(["hello", "world"]) + [Ok(None)]) ==
      [NamedUpdate(c, Log("Requesting logs")), NamedUpdate(c, Log("Reading logs")),
       NamedUpdate(c, ContainerLog("hello")), NamedUpdate(c, ContainerLog("world"))]
  {
    LogLinesThenEnd(c, Ok(()), ["hello", "world"], []);
    assert Lines(["hello", "world"]) + [Ok(None)] + [] == Lines(["hello", "world"]) + [Ok(None)];
  }

  // ------------------------------------------------------------------
  // Container discovery
  // ------------------------------------------------------------------

  /** One item of the listing of the container config directory. */
  datatype DirEntry =
    | EntryFailed(error: ErrorChain)   // the entry itself could not be read
    | NonUtf8Name(lossy: string)      // a file name that is not UTF-8, rendered lossily
    | FileName(name: string)          // a UTF-8 file name

  /** `rsplit_once('.')` keeping the part before the last dot. */
  function ConfigName(fileName: string): (r: Option<string>)
    ensures r.None? <==> '.' !in fileName
    ensures r.Some? ==>
      |r.value| < |fileName| && fileName[..|r.value|] == r.value &&
      fileName[|r.value|] == '.' && '.' !in fileName[|r.value| + 1..]
    decreases |fileName|
  {
    if |fileName| == 0 then None
    else if fileName[|fileName| - 1] == '.' then Some(fileName[..|fileName| - 1])
    else ConfigName(fileName[..|fileName| - 1])
  }

  /** The container name an entry yields, or the error that rejects it. */
  function EntryName(entry: DirEntry): (r: Result<string>)
    ensures r.Ok? <==> entry.FileName? && '.' in entry.name
    ensures r.Ok? ==> ConfigName(entry.name) == Some(r.value)
    ensures entry.EntryFailed? ==> r == Err(["Failed to get container config"] + entry.error)
    ensures entry.NonUtf8Name? ==> r == Err(["Container config name contains invalid UTF-8: " + entry.lossy])
    ensures entry.FileName? && '.' !in entry.name ==> r == Err(["Container config name is not of expected form"])
  {
    match entry
    case EntryFailed(e) => Err(Context<string>(Err(e), "Failed to get container config").error)
    case NonUtf8Name(lossy) => Err(Fail("Container config name contains invalid UTF-8: " + lossy))
    case FileName(name) =>
      match ConfigName(name)
      case None => Err(Fail("Container config name is not of expected form"))
      case Some(n) => Ok(n)
  }

  /** `collect::<Result<Vec<_>>>()`: every name in order, or the error of
      the first entry that has none. */
  function CollectNames(entries: seq<DirEntry>): (r: Result<seq<string>>)
    ensures r.Ok? <==> forall i :: 0 <= i < |entries| ==> EntryName(entries[i]).Ok?
    ensures r.Ok? ==>
      |r.value| == |entries| && forall i :: 0 <= i < |entries| ==> r.value[i] == EntryName(entries[i]).value
    ensures r.Err? ==> exists i :: (0 <= i < |entries| && EntryName(entries[i]) == Err(r.error) &&
      forall j :: 0 <= j < i ==> EntryName(entries[j]).Ok?)
    decreases |entries|
  {
    if |entries| == 0 then Ok([])
    else
      match EntryName(entries[0])
      case Err(e) => Err(e)
      case Ok(n) =>
        match CollectNames(entries[1..])
        case Err(e) => Err(e)
        case Ok(ns) => Ok([n] + ns)
  }

  /** `get_containers` over the result of listing the config directory. */
  method GetContainers(listing: Result<seq<DirEntry>>) returns (r: Result<seq<string>>)
    ensures listing.Err? ==> r == Err(["Failed to list container configs"] + listing.error)
    ensures listing.Ok? && CollectNames(listing.value).Err? ==> r == CollectNames(listing.value)
    ensures r.Ok? <==> listing.Ok? && forall i :: 0 <= i < |listing.value| ==> EntryName(listing.value[i]).Ok?
    ensures r.Ok? ==>
      |r.value| == |listing.value| && Sorted(r.value) &&
      multiset(r.value) == multiset(CollectNames(listing.value).value)
    ensures r.Ok? ==> forall k :: 0 <= k < |r.value| ==>
      exists i :: (0 <= i < |listing.value| && listing.value[i].FileName? &&
        ConfigName(listing.value[i].name) == Some(r.value[k]))
  {
    if listing.Err? {
      return Err(Context(listing, "Failed to list container configs").error);
    }
    var names := CollectNames(listing.value);
    if names.Err? {
      return Err(names.error);
    }
    var configs := new string[|names.value|](i requires 0 <= i < |names.value| => names.value[i]);
    assert configs[..] == names.value;
    SortInPlace(configs);
    r := Ok(configs[..]);
    forall k | 0 <= k < |r.value|
      ensures exists i :: (0 <= i < |listing.value| && listing.value[i].FileName? &&
        ConfigName(listing.value[i].name) == Some(r.value[k]))
    {
      assert r.value[k] in multiset(names.value);
      var i :| 0 <= i < |names.value| && names.value[i] == r.value[k];
      assert EntryName(listing.value[i]).Ok?;
    }
  }

  /** A file name splits at its last dot: the part before it is the name,
      provided the extension after it has no dot. */
  lemma {:induction false} ConfigNameOfDotted(stem: string, extension: string)
    requires '.' !in extension
    ensures ConfigName(stem + "." + extension) == Some(stem)
    decreases |extension|
  {
    var name := stem + "." + extension;
    if |extension| == 0 {
      assert name == stem + ['.'];
      assert name[..|name| - 1] == stem;
    } else {
      var shorter, last := extension[..|extension| - 1], extension[|extension| - 1];
      assert extension == shorter + [last];
      assert name == (stem + "." + shorter) + [last];
      assert last != '.' && '.' !in shorter;
      ConfigNameOfDotted(stem, shorter);
    }
  }

  /** Only the last dot splits: db.old.nix names db.old; a name without a
      dot names nothing. */
  lemma ConfigNameExample()
    ensures ConfigName("db.old.nix") == Some("db.old")
    ensures ConfigName("web") == None
  {
    assert "db.old.nix" == "db.old" + "." + "nix";
    ConfigNameOfDotted("db.old", "nix");
    assert '.' !in "web";
  }

  /** Sorting names web, db.old, web: the result is fully determined, and
      the duplicate stays. */
  lemma ExampleSorted(s: seq<string>)
    requires Sorted(s) && multiset(s) == multiset(["web", "db.old", "web"])
    ensures s == ["db.old", "web", "web"]
  {
    var t := ["db.old", "web", "web"];
    LessEqReflexive("web");
    assert LessEq("db.old", "web");
    assert SortedBelow(t, |t|);
    AdjacentSortedIsSorted(t);
    assert multiset(t) == multiset(["web", "db.old", "web"]);
    SortedUnique(s, t);
  }
}
