/** The Oxide objects the controllers look at, and the Ready reason derived from them. */
module Cloud {
  import opened Basics

  datatype RunState = Running | Stopped | Failed | Stopping | Destroyed | OtherState(text: string)

  datatype Instance = Instance(id: string, run: RunState)

  datatype DiskState = Attached | Detached | Faulted | OtherDisk(text: string)

  datatype IpStack = V4(v4: string) | V6(v6: string) | DualStack(dual4: string, dual6: string) | UnknownStack

  datatype ExternalIp = Ephemeral(ip: string) | OtherExternalIp(ip: string)

  datatype Address = InternalIP(address: string) | ExternalIP(address: string)

  /** Why a condition has its value. `InstanceReason(None)` stands for an instance that is gone. */
  datatype Reason =
    | WaitingForBootstrapData
    | InstanceReason(run: Option<RunState>)
    | FloatingIPProvisioned
    | FloatingIPAttached
    | WaitingForControlPlaneMachine

  /** A status condition: never set, or set with a reason. */
  datatype Condition = Unset | False(reason: Reason) | True(reason: Reason)

  function RunStateText(run: RunState): string {
    match run
    case Running => "running"
    case Stopped => "stopped"
    case Failed => "failed"
    case Stopping => "stopping"
    case Destroyed => "destroyed"
    case OtherState(text) => text
  }

  function Upper(c: char): char {
    if 'a' <= c <= 'z' then c - 'a' + 'A' else c
  }

  function ReadyReason(instance: Option<Instance>): Reason {
    InstanceReason(if instance.Some? then Some(instance.value.run) else None)
  }

  /** The text of a reason; for instances, "Instance" and the capitalised run state. */
  function ReasonText(reason: Reason): string {
    match reason
    case WaitingForBootstrapData => "WaitingForBootstrapData"
    case FloatingIPProvisioned => "FloatingIPProvisioned"
    case FloatingIPAttached => "FloatingIPAttached"
    case WaitingForControlPlaneMachine => "WaitingForControlPlaneMachine"
    case InstanceReason(None) => "InstanceDeleted"
    case InstanceReason(Some(run)) =>
      var text := RunStateText(run);
      if text == "" then "InstanceUnknown" else "Instance" + [Upper(text[0])] + text[1..]
  }

  /** The reasons that have nothing to do with an instance, letter by letter. */
  lemma ReasonsSpelledOut()
    ensures ReasonText(WaitingForBootstrapData) == "WaitingForBootstrapData"
    ensures ReasonText(FloatingIPProvisioned) == "FloatingIPProvisioned"
    ensures ReasonText(FloatingIPAttached) == "FloatingIPAttached"
    ensures ReasonText(WaitingForControlPlaneMachine) == "WaitingForControlPlaneMachine"
  {
  }

  lemma InstanceReasonsSpelledOut()
    ensures ReasonText(InstanceReason(Some(Running))) == "InstanceRunning"
    ensures ReasonText(InstanceReason(Some(Stopped))) == "InstanceStopped"
    ensures ReasonText(InstanceReason(Some(Failed))) == "InstanceFailed"
    ensures ReasonText(InstanceReason(Some(Stopping))) == "InstanceStopping"
    ensures ReasonText(InstanceReason(Some(Destroyed))) == "InstanceDestroyed"
  {
  }

  /** What a reason shows of an instance. */
  function Shown(run: Option<RunState>): string {
    if run.None? then "deleted" else if RunStateText(run.value) == "" then "unknown" else RunStateText(run.value)
  }

  /** Two instances give the same reason exactly when what they show agrees up to the case of
      its first letter: a reason tells run states apart, except that a state spelled "deleted"
      or "unknown" would pass for a missing instance or a missing state. */
  lemma SameReasonIff(a: Option<RunState>, b: Option<RunState>)
    ensures ReasonText(InstanceReason(a)) == ReasonText(InstanceReason(b)) <==>
            Upper(Shown(a)[0]) == Upper(Shown(b)[0]) && Shown(a)[1..] == Shown(b)[1..]
  {
    ReasonIsCapitalised(a);
    ReasonIsCapitalised(b);
    var prefix := "Instance";
    var x, y := [Upper(Shown(a)[0])] + Shown(a)[1..], [Upper(Shown(b)[0])] + Shown(b)[1..];
    assert ReasonText(InstanceReason(a))[|prefix|..] == x && ReasonText(InstanceReason(b))[|prefix|..] == y;
    assert x[0] == Upper(Shown(a)[0]) && x[1..] == Shown(a)[1..];
    assert y[0] == Upper(Shown(b)[0]) && y[1..] == Shown(b)[1..];
  }

  lemma ReasonIsCapitalised(run: Option<RunState>)
    ensures Shown(run) != ""
    ensures ReasonText(InstanceReason(run)) == "Instance" + ([Upper(Shown(run)[0])] + Shown(run)[1..])
  {
  }

  /** The disks the controller sends a delete request for. */
  predicate Deletable(disk: DiskState) {
    disk.Detached? || disk.Faulted?
  }
}
