/** One OxideMachine as a transition system: its Kubernetes object, the cloud resources under
    its names, and at most one reconcile in flight, interleaved call by call with users and the
    cloud. The reconcile is an automaton driven by the replies it gets; the cloud turns each
    request into an effect and a reply. */
module MachineModel {
  import opened Basics
  import opened Cloud
  import Addresses
  import ProviderId

  // ---- State ------------------------------------------------------------------------------

  /** The fields of an OxideMachine object that reconciles and their readers care about. */
  datatype Obj = Obj(
    fin: bool,
    deleting: bool,
    pid: string,
    provisioned: Option<bool>,
    addrs: seq<Address>,
    ready: Condition)

  /** What the reconcile in flight does next. The first four and the last three before `End`
      never mix: a reconcile is on the normal or on the deletion path. */
  datatype Pc =
    | Begin
    | ReadyToCreate
    | Adopting
    | Starting(instance: Instance)
    | ListingNics(instance: Instance)
    | ListingIps(instance: Instance, nicAddrs: seq<Address>)
    | DelView
    | DelSeen(instance: Instance)
    | DelDisk
    | DelDiskSeen(disk: DiskState)
    | End(verdict: Verdict)

  /** `orig` is the object as read, `cur` the in-memory object the reconcile has been changing. */
  datatype Proc = Idle | Busy(orig: Obj, cur: Obj, pc: Pc)

  /** `pool` says whether the spec names an IP pool. `ids` collects every id an instance of
      this name ever had, and `asked` whether deletion was ever requested. */
  datatype State = State(
    pool: bool,
    obj: Option<Obj>,
    inst: Option<Instance>,
    disk: Option<DiskState>,
    proc: Proc,
    ids: set<string>,
    asked: bool)

  datatype BootstrapData = NotSet | Unreadable | Available

  /** A reconcile's steps, then the cloud's and the users' own moves, then moves that nobody
      but the controller should make. */
  datatype Event =
    | Enter(clientBuilt: bool)
    | Bootstrap(data: BootstrapData)
    | InstanceView(up: bool)
    | InstanceCreate(delivery: Delivery, id: string, run: RunState)
    | InstanceStart(delivery: Delivery, run: RunState)
    | NicList(nics: Option<seq<IpStack>>)
    | ExternalIpList(ips: Option<seq<ExternalIp>>)
    | InstanceStop(delivery: Delivery)
    | InstanceDelete(delivery: Delivery, reaped: bool)
    | DiskView(up: bool)
    | DiskDelete(delivery: Delivery)
    | Patch(specOk: bool, statusOk: bool)
    | Crash
    | UserDelete
    | RunStateChange(run: RunState)
    | InstanceReaped
    | DiskChange(state: DiskState)
    | OobInstance(id: string, run: RunState)
    | OobInstanceGone
    | OobDisk(state: DiskState)
    | OobDiskGone

  predicate IsOutOfBand(e: Event) {
    e.OobInstance? || e.OobInstanceGone? || e.OobDisk? || e.OobDiskGone?
  }

  predicate IsEnvironment(e: Event) {
    e.UserDelete? || e.RunStateChange? || e.InstanceReaped? || e.DiskChange? || IsOutOfBand(e)
  }

  // ---- The reconcile as an automaton ------------------------------------------------------

  function OnEnter(o: Obj, clientBuilt: bool): Proc {
    if !clientBuilt then Busy(o, o, End(Errored))
    else if o.deleting then Busy(o, o, DelView)
    else Busy(o, o.(fin := true), Begin)
  }

  function OnBootstrap(orig: Obj, cur: Obj, data: BootstrapData): Proc {
    match data
    case NotSet => Busy(orig, cur.(ready := False(WaitingForBootstrapData)), End(Finished))
    case Unreadable => Busy(orig, cur, End(Errored))
    case Available => Busy(orig, cur, ReadyToCreate)
  }

  /** `ensureInstanceRunning` and what follows it, once an instance is known. */
  function OnInstance(orig: Obj, cur: Obj, i: Instance): Proc {
    match i.run
    case Stopped => Busy(orig, cur, Starting(i))
    case Running =>
      var up := cur.(ready := True(ReadyReason(Some(i))), provisioned := Some(true));
      Busy(orig, up, if up.addrs == [] then ListingNics(i) else End(Finished))
    case _ => Busy(orig, cur.(ready := False(ReadyReason(Some(i)))), End(RequeueAfter10s))
  }

  function OnNormalView(orig: Obj, cur: Obj, adopting: bool, r: Reply<Instance>): Proc {
    match r
    case Ok(i) => OnInstance(orig, if adopting then cur.(pid := ProviderId.NewProviderID(i.id)) else cur, i)
    case _ => Busy(orig, cur, End(Errored))
  }

  function OnCreate(orig: Obj, cur: Obj, r: Reply<Instance>): Proc {
    match r
    case Ok(i) => OnInstance(orig, cur.(pid := ProviderId.NewProviderID(i.id)), i)
    case AlreadyExists => Busy(orig, cur, Adopting)
    case _ => Busy(orig, cur, End(Errored))
  }

  function OnStart(orig: Obj, cur: Obj, r: Reply<Instance>): Proc {
    match r
    case Ok(i) => Busy(orig, cur.(ready := False(ReadyReason(Some(i)))), End(RequeueAfter10s))
    case _ => Busy(orig, cur, End(Errored))
  }

  function OnNics(pool: bool, orig: Obj, cur: Obj, i: Instance, nics: Option<seq<IpStack>>): Proc {
    if nics.None? || Addresses.FromNics(nics.value).None? then Busy(orig, cur, End(Errored))
    else
      var a := Addresses.FromNics(nics.value).value;
      if pool then Busy(orig, cur, ListingIps(i, a)) else Busy(orig, cur.(addrs := a), End(Finished))
  }

  function OnIps(orig: Obj, cur: Obj, a: seq<Address>, ips: Option<seq<ExternalIp>>): Proc {
    match ips
    case None => Busy(orig, cur, End(Errored))
    case Some(list) => Busy(orig, cur.(addrs := a + Addresses.OfExternal(list)), End(Finished))
  }

  /** The instance was observed to be absent: on to the boot disk. */
  function OnInstanceAbsent(orig: Obj, cur: Obj): Proc {
    Busy(orig, cur.(ready := False(ReadyReason(None))), DelDisk)
  }

  function OnDelView(orig: Obj, cur: Obj, r: Reply<Instance>): Proc {
    match r
    case NotFound => OnInstanceAbsent(orig, cur)
    case Ok(i) =>
      if i.run.Running? || i.run.Stopped? || i.run.Failed? then Busy(orig, cur, DelSeen(i))
      else Busy(orig, cur.(ready := False(ReadyReason(Some(i)))), End(RequeueAfter10s))
    case _ => Busy(orig, cur, End(Errored))
  }

  function OnStop(orig: Obj, cur: Obj, r: Reply<Instance>): Proc {
    match r
    case NotFound => OnInstanceAbsent(orig, cur)
    case Ok(i) => Busy(orig, cur.(ready := False(ReadyReason(Some(i)))), End(RequeueAfter10s))
    case _ => Busy(orig, cur, End(Errored))
  }

  function OnDelete(orig: Obj, cur: Obj, r: Reply<()>): Proc {
    match r
    case NotFound => OnInstanceAbsent(orig, cur)
    case Ok(_) => Busy(orig, cur.(ready := False(ReadyReason(None))), End(RequeueAfter10s))
    case _ => Busy(orig, cur, End(Errored))
  }

  /** The boot disk is gone as well: drop the finalizer. */
  function OnAllGone(orig: Obj, cur: Obj): Proc {
    Busy(orig, cur.(fin := false), End(Finished))
  }

  function OnDiskView(orig: Obj, cur: Obj, r: Reply<DiskState>): Proc {
    match r
    case NotFound => OnAllGone(orig, cur)
    case Ok(d) => Busy(orig, cur, if Deletable(d) then DelDiskSeen(d) else End(RequeueAfter10s))
    case _ => Busy(orig, cur, End(Errored))
  }

  function OnDiskDelete(orig: Obj, cur: Obj, r: Reply<()>): Proc {
    if r.Ok? || r.NotFound? then OnAllGone(orig, cur) else Busy(orig, cur, End(Errored))
  }

  // ---- The cloud --------------------------------------------------------------------------

  /** A conflict on the instance name or on the boot disk name refuses the whole request. */
  function CreateReply(s: State, e: Event): Reply<Instance>
    requires e.InstanceCreate?
  {
    if e.delivery.Served? && (s.inst.Some? || s.disk.Some?) then AlreadyExists
    else Answer(e.delivery, true, Instance(e.id, e.run))
  }

  predicate Creates(s: State, e: Event) {
    e.InstanceCreate? && !e.delivery.Dropped? && s.inst.None? && s.disk.None?
  }

  predicate CanStart(s: State, id: string) {
    s.inst.Some? && s.inst.value.id == id && !s.inst.value.run.Destroyed?
  }

  function StoppedRun(run: RunState): RunState {
    if run.Stopped? || run.Failed? || run.Destroyed? then run else Stopping
  }

  predicate CanDestroy(s: State) {
    s.inst.Some? && (s.inst.value.run.Stopped? || s.inst.value.run.Failed?)
  }

  /** The cloud deletes a disk that is not in use. */
  predicate CanDeleteDisk(s: State) {
    s.disk == Some(Detached) || s.disk == Some(Faulted)
  }

  function GoneOr<T>(gone: bool, delivery: Delivery, otherwise: Reply<T>): Reply<T> {
    if gone && delivery.Served? then NotFound else otherwise
  }

  function StopReply(s: State, e: Event): Reply<Instance>
    requires e.InstanceStop?
  {
    if s.inst.None? then GoneOr(true, e.delivery, Error)
    else Answer(e.delivery, true, s.inst.value.(run := StoppedRun(s.inst.value.run)))
  }

  function DeleteReply(s: State, e: Event): Reply<()>
    requires e.InstanceDelete?
  {
    GoneOr(s.inst.None?, e.delivery, Answer(e.delivery, CanDestroy(s), ()))
  }

  function DiskDeleteReply(s: State, e: Event): Reply<()>
    requires e.DiskDelete?
  {
    GoneOr(s.disk.None?, e.delivery, Answer(e.delivery, CanDeleteDisk(s), ()))
  }

  // ---- The API server ---------------------------------------------------------------------

  /** The patch helper sends what the reconcile changed, as separate spec and status writes. */
  function Merged(o: Obj, orig: Obj, cur: Obj, specOk: bool, statusOk: bool): Obj {
    o.(fin := if specOk && cur.fin != orig.fin then cur.fin else o.fin,
       pid := if specOk && cur.pid != orig.pid then cur.pid else o.pid,
       provisioned := if statusOk && cur.provisioned != orig.provisioned then cur.provisioned else o.provisioned,
       addrs := if statusOk && cur.addrs != orig.addrs then cur.addrs else o.addrs,
       ready := if statusOk && cur.ready != orig.ready then cur.ready else o.ready)
  }

  lemma WholePatchCopies(o: Obj, cur: Obj)
    requires cur.deleting == o.deleting
    ensures Merged(o, o, cur, true, true) == cur
  {
  }

  /** An object marked for deletion disappears when its finalizer does. */
  function Kept(o: Obj): Option<Obj> {
    if o.deleting && !o.fin then None else Some(o)
  }

  // ---- Transitions ------------------------------------------------------------------------

  predicate At(s: State, pc: Pc) {
    s.proc.Busy? && s.proc.pc == pc
  }

  predicate Legal(s: State, e: Event) {
    match e
    case Enter(_) => s.proc.Idle? && s.obj.Some?
    case Bootstrap(_) => At(s, Begin) && s.proc.cur.pid == ""
    case InstanceView(_) => (At(s, Begin) && s.proc.cur.pid != "") || At(s, Adopting) || At(s, DelView)
    case InstanceCreate(_, id, run) => At(s, ReadyToCreate) && !run.Destroyed? && (Creates(s, e) ==> id !in s.ids)
    case InstanceStart(_, run) => s.proc.Busy? && s.proc.pc.Starting? && !run.Destroyed?
    case NicList(_) => s.proc.Busy? && s.proc.pc.ListingNics?
    case ExternalIpList(_) => s.proc.Busy? && s.proc.pc.ListingIps?
    case InstanceStop(_) => s.proc.Busy? && s.proc.pc.DelSeen? && s.proc.pc.instance.run.Running?
    case InstanceDelete(_, _) => s.proc.Busy? && s.proc.pc.DelSeen? && !s.proc.pc.instance.run.Running?
    case DiskView(_) => At(s, DelDisk)
    case DiskDelete(_) => s.proc.Busy? && s.proc.pc.DelDiskSeen?
    case Patch(_, _) => s.proc.Busy? && s.proc.pc.End?
    case Crash => s.proc.Busy?
    case UserDelete => s.obj.Some?
    case RunStateChange(run) => s.inst.Some? && !s.inst.value.run.Destroyed? && !run.Destroyed?
    case InstanceReaped => s.inst.Some? && s.inst.value.run.Destroyed?
    case DiskChange(_) => s.disk.Some?
    case OobInstance(id, run) => s.inst.None? && id !in s.ids && !run.Destroyed?
    case OobInstanceGone => s.inst.Some?
    case OobDisk(_) => s.disk.None?
    case OobDiskGone => s.disk.Some?
  }

  /** How the reconcile in flight reacts to its own step. */
  function NextProc(s: State, e: Event): Proc
    requires Legal(s, e) && !IsEnvironment(e)
  {
    if e.Enter? then OnEnter(s.obj.value, e.clientBuilt)
    else
      var (orig, cur, pc) := (s.proc.orig, s.proc.cur, s.proc.pc);
      match e
      case Bootstrap(data) => OnBootstrap(orig, cur, data)
      case InstanceView(up) =>
        if pc.DelView? then OnDelView(orig, cur, ViewReply(s.inst, up))
        else OnNormalView(orig, cur, pc.Adopting?, ViewReply(s.inst, up))
      case InstanceCreate(_, _, _) => OnCreate(orig, cur, CreateReply(s, e))
      case InstanceStart(d, run) =>
        OnStart(orig, cur, Answer(d, CanStart(s, pc.instance.id), pc.instance.(run := run)))
      case NicList(nics) => OnNics(s.pool, orig, cur, pc.instance, nics)
      case ExternalIpList(ips) => OnIps(orig, cur, pc.nicAddrs, ips)
      case InstanceStop(_) => OnStop(orig, cur, StopReply(s, e))
      case InstanceDelete(_, _) => OnDelete(orig, cur, DeleteReply(s, e))
      case DiskView(up) => OnDiskView(orig, cur, ViewReply(s.disk, up))
      case DiskDelete(_) => OnDiskDelete(orig, cur, DiskDeleteReply(s, e))
      case _ => Idle
  }

  /** The effect of a step on the object and the cloud. */
  function Effect(s: State, e: Event): State
    requires Legal(s, e)
  {
    match e
    case InstanceCreate(_, id, run) =>
      if Creates(s, e)
      then s.(inst := Some(Instance(id, run)), disk := Some(Attached), ids := s.ids + {id})
      else s
    case InstanceStart(d, run) =>
      if !d.Dropped? && CanStart(s, s.proc.pc.instance.id)
      then s.(inst := Some(s.inst.value.(run := run))) else s
    case InstanceStop(d) =>
      if !d.Dropped? && s.inst.Some?
      then s.(inst := Some(s.inst.value.(run := StoppedRun(s.inst.value.run)))) else s
    case InstanceDelete(d, reaped) =>
      if !d.Dropped? && CanDestroy(s)
      then s.(inst := if reaped then None else Some(s.inst.value.(run := Destroyed))) else s
    case DiskDelete(d) => if !d.Dropped? && CanDeleteDisk(s) then s.(disk := None) else s
    case Patch(specOk, statusOk) =>
      if s.obj.Some?
      then s.(obj := Kept(Merged(s.obj.value, s.proc.orig, s.proc.cur, specOk, statusOk))) else s
    case UserDelete => s.(obj := Kept(s.obj.value.(deleting := true)), asked := true)
    case RunStateChange(run) => s.(inst := Some(s.inst.value.(run := run)))
    case InstanceReaped => s.(inst := None)
    case DiskChange(d) => s.(disk := Some(d))
    case OobInstance(id, run) => s.(inst := Some(Instance(id, run)), ids := s.ids + {id})
    case OobInstanceGone => s.(inst := None)
    case OobDisk(d) => s.(disk := Some(d))
    case OobDiskGone => s.(disk := None)
    case _ => s
  }

  function Apply(s: State, e: Event): State
    requires Legal(s, e)
  {
    Effect(s, e).(proc := if IsEnvironment(e) then s.proc else NextProc(s, e))
  }

  // ---- Runs -------------------------------------------------------------------------------

  predicate LegalRun(s: State, log: seq<Event>)
    decreases |log|, 0
  {
    log == [] ||
    var init := log[..|log| - 1];
    LegalRun(s, init) && Legal(After(s, init), log[|log| - 1])
  }

  function After(s: State, log: seq<Event>): State
    requires LegalRun(s, log)
    decreases |log|, 1
  {
    if log == [] then s else Apply(After(s, log[..|log| - 1]), log[|log| - 1])
  }

  lemma Snoc(s: State, log: seq<Event>, e: Event)
    requires LegalRun(s, log) && Legal(After(s, log), e)
    ensures LegalRun(s, log + [e]) && After(s, log + [e]) == Apply(After(s, log), e)
  {
    assert (log + [e])[..|log|] == log;
  }

  lemma OneStep(s: State, a: Event)
    requires Legal(s, a)
    ensures LegalRun(s, [a]) && After(s, [a]) == Apply(s, a)
  {
    assert LegalRun(s, []) && After(s, []) == s;
    Snoc(s, [], a);
    assert [] + [a] == [a];
  }

  lemma TwoSteps(s: State, a: Event, b: Event)
    requires Legal(s, a) && Legal(Apply(s, a), b)
    ensures LegalRun(s, [a, b]) && After(s, [a, b]) == Apply(Apply(s, a), b)
  {
    OneStep(s, a);
    Snoc(s, [a], b);
    assert [a] + [b] == [a, b];
  }

  /** A run from where another one ended continues it. */
  lemma {:induction false} Append(s: State, log: seq<Event>, more: seq<Event>)
    requires LegalRun(s, log) && LegalRun(After(s, log), more)
    ensures LegalRun(s, log + more)
    ensures After(s, log + more) == After(After(s, log), more)
  {
    if more == [] {
      assert log + more == log;
    } else {
      var init, last := more[..|more| - 1], more[|more| - 1];
      Append(s, log, init);
      Snoc(s, log + init, last);
      Regroup(log, more);
    }
  }

  /** A new object; the cloud may already hold an instance or a disk of its names. */
  predicate Init(s: State) {
    && s.obj == Some(Obj(false, false, "", None, [], Unset))
    && s.proc.Idle?
    && !s.asked
    && s.ids == (if s.inst.Some? then {s.inst.value.id} else {})
    && (s.inst.Some? ==> !s.inst.value.run.Destroyed?)
  }

  /** Nobody but the controller makes an instance or a boot disk of the machine's names. */
  predicate NoneMadeByOthers(log: seq<Event>) {
    forall i :: 0 <= i < |log| ==> !log[i].OobInstance? && !log[i].OobDisk?
  }

  predicate NoneOutOfBand(log: seq<Event>) {
    forall i :: 0 <= i < |log| ==> !IsOutOfBand(log[i])
  }
}
