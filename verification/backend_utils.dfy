/** Backend helpers (src/backend/utils.rs): the systemd service name of a
    container, the update channel, and the `log!` and `report_async!` macros
    as operations that append to it. */
module BackendUtils {
  import opened Errors
  import opened Messages

  /** `service_name`: the systemd unit that runs a container. */
  function ServiceName(container: string): (name: string)
    ensures |name| == |container| + 18
    ensures name[..10] == "container@"
    ensures name[10..|name| - 8] == container
    ensures name[|name| - 8..] == ".service"
  {
    "container@" + container + ".service"
  }

  /** Distinct containers run as distinct services. */
  lemma ServiceNameInjective(a: string, b: string)
    requires ServiceName(a) == ServiceName(b)
    ensures a == b
  {
    var n := ServiceName(a);
    assert a == n[10..|n| - 8];
  }

  /** The sending half of the unbounded update channel. Every clone of a
      `Sender` shares one queue, so the model has a single object. The
      receiving side lives outside the backend; `open` records whether it
      still exists. */
  class Channel {
    /** Updates sent so far, oldest first. */
    var queue: seq<NamedUpdate>
    var open: bool

    constructor ()
      ensures queue == [] && open
    {
      queue := [];
      open := true;
    }

    /** `send(..).expect(..)`: the backend treats a closed channel as a
        fatal error, so every send requires the receiver to be alive. */
    method Send(update: NamedUpdate)
      requires open
      modifies this
      ensures queue == old(queue) + [update] && open
    {
      queue := queue + [update];
    }

    /** The consumer drops its receiver; the record of what was sent is kept. */
    method CloseReceiver()
      modifies this
      ensures queue == old(queue) && !open
    {
      open := false;
    }
  }

  /** `log!(container, channel, message)`: one diagnostic line for a
      container, appended after everything already sent. */
  method LogMessage(ch: Channel, container: string, message: string)
    requires ch.open
    modifies ch
    ensures ch.queue == old(ch.queue) + [NamedUpdate(container, Log(message))] && ch.open
  {
    ch.Send(NamedUpdate(container, Log(message)));
  }

  /** What a fallible monitor body did: the updates it sent, in order, and
      the `Result<()>` it returned. */
  datatype Trace = Trace(events: seq<NamedUpdate>, result: Result<()>)

  /** Every update in `events` names `container`. */
  predicate AllTagged(container: string, events: seq<NamedUpdate>)
  {
    forall i :: 0 <= i < |events| ==> events[i].containerName == container
  }

  /** The updates a `report_async!` function sends in all: its body's
      updates, then, if the body failed, one `Error` for the container whose
      outermost context is the wrapper's literal. */
  function Reported(container: string, context: string, body: Trace): (r: seq<NamedUpdate>)
    ensures body.result.Ok? ==> r == body.events
    ensures body.result.Err? ==> r == body.events + [NamedUpdate(container, Error([context] + body.result.error))]
    ensures AllTagged(container, body.events) ==> AllTagged(container, r)
  {
    match body.result
    case Ok(_) => body.events
    case Err(e) => body.events + [NamedUpdate(container, Error(Context(body.result, context).error))]
  }

  /** The reporting half of `report_async!`: a body that returned `Ok`
      adds nothing; one that returned `Err` adds exactly one `Error` for the
      container, with `context` wrapped around the body's error. */
  method ReportAsync(ch: Channel, container: string, context: string, result: Result<()>)
    requires ch.open
    modifies ch
    ensures ch.queue == old(ch.queue) + Reported(container, context, Trace([], result))
    ensures result.Ok? ==> ch.queue == old(ch.queue)
    ensures result.Err? ==> ch.queue == old(ch.queue) + [NamedUpdate(container, Error([context] + result.error))]
    ensures ch.open
  {
    match result
    case Ok(_) =>
    case Err(e) =>
      ch.Send(NamedUpdate(container, Error(Context(result, context).error)));
  }

  /** Reporting after a body appends exactly what `Reported` describes. */
  lemma ReportedAppends(container: string, context: string, body: Trace)
    ensures Reported(container, context, body) == body.events + Reported(container, context, Trace([], body.result))
  {
  }
}
