/** The messages the backend sends to the UI (src/backend/messages.rs). */
module Messages {
  import opened Errors

  /** The state of a container service. */
  datatype ContainerState = Up | Down | Starting | Stopping | Reloading | Refreshing | Failed | Maintenance

  /** An update message from the backend. `Log` and `Error` come from the
      monitors themselves, `State` and `ContainerLog` from the container. */
  datatype Update =
    | Log(message: string)
    | Error(error: ErrorChain)
    | State(state: ContainerState)
    | ContainerLog(line: string)

  /** An update tagged with the container it concerns. */
  datatype NamedUpdate = NamedUpdate(containerName: string, inner: Update)

  /** The table `from_systemd` matches against: each systemd `ActiveState`
      token the backend understands and the state it stands for. */
  const StateTable: map<string, ContainerState> := map[
    "active" := Up,
    "inactive" := Down,
    "failed" := Failed,
    "activating" := Starting,
    "deactivating" := Stopping,
    "maintenance" := Maintenance,
    "reloading" := Reloading,
    "refreshing" := Refreshing
  ]

  /** The tokens the backend understands. */
  const SystemdTokens: set<string> := StateTable.Keys

  /** The token each state is decoded from: the table read from right to
      left. */
  function SystemdToken(s: ContainerState): (token: string)
  {
    match s
    case Up => "active"
    case Down => "inactive"
    case Failed => "failed"
    case Starting => "activating"
    case Stopping => "deactivating"
    case Maintenance => "maintenance"
    case Reloading => "reloading"
    case Refreshing => "refreshing"
  }

  /** `ContainerState::from_systemd`: an exact, case-sensitive lookup; any
      other token is an error that names it. */
  function FromSystemd(state: string): (r: Result<ContainerState>)
    ensures r.Ok? <==> state in SystemdTokens
    ensures r.Ok? ==> SystemdToken(r.value) == state
    ensures r.Err? ==> r.error == ["Unrecognized unit status " + state]
  {
    if state in StateTable then Ok(StateTable[state])
    else Err(Fail("Unrecognized unit status " + state))
  }

  /** Every state is produced by its own token. */
  lemma FromSystemdToken(s: ContainerState)
    ensures FromSystemd(SystemdToken(s)) == Ok(s)
  {
  }

  /** Two accepted tokens that decode to the same state are the same token. */
  lemma FromSystemdInjective(a: string, b: string)
    requires FromSystemd(a).Ok? && FromSystemd(a) == FromSystemd(b)
    ensures a == b
  {
  }

  /** No two states share a token, so the table is a bijection between the
      eight tokens and the eight states. */
  lemma SystemdTokenInjective(s: ContainerState, t: ContainerState)
    requires SystemdToken(s) == SystemdToken(t)
    ensures s == t
  {
  }

  /** Matching is exact: the empty string, other capitalisations, padding and
      unknown words are rejected, each with its own text in the message. */
  lemma FromSystemdIsExact()
    ensures FromSystemd("") == Err(["Unrecognized unit status "])
    ensures FromSystemd("ACTIVE") == Err(["Unrecognized unit status ACTIVE"])
    ensures FromSystemd("Active").Err? && FromSystemd("active ").Err?
    ensures FromSystemd("bogus") == Err(["Unrecognized unit status bogus"])
  {
    assert "Unrecognized unit status " + "" == "Unrecognized unit status ";
    assert "Unrecognized unit status " + "ACTIVE" == "Unrecognized unit status ACTIVE";
    assert "Unrecognized unit status " + "bogus" == "Unrecognized unit status bogus";
  }
}
