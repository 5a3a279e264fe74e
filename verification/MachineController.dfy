/** The OxideMachine reconciler as imperative code. `World` stands for the API server and the
    Oxide client: before each call it lets users and the cloud make any moves of their own, and
    it decides whether the call is served, its answer lost, or dropped. Its log is proved to be
    a run of the machine model, so everything proved about runs holds of this code. */
module MachineController {
  import opened Basics
  import opened Cloud
  import opened MachineModel
  import Addresses
  import ProviderId

  /** The in-memory object a reconcile changes and finally patches. */
  class OxideMachine {
    const deleting: bool
    var fin: bool
    var pid: string
    var provisioned: Option<bool>
    var addrs: seq<Address>
    var ready: Condition

    function Value(): Obj
      reads this
    {
      Obj(fin, deleting, pid, provisioned, addrs, ready)
    }

    constructor (o: Obj)
      ensures Value() == o
    {
      deleting := o.deleting;
      fin, pid, provisioned, addrs, ready := o.fin, o.pid, o.provisioned, o.addrs, o.ready;
    }
  }

  class World {
    ghost const start: State
    ghost var log: seq<Event>
    var s: State

    ghost predicate Valid()
      reads this
    {
      LegalRun(start, log) && s == After(start, log)
    }

    /** The reconcile in flight holds `m` and is at `pc`. */
    ghost predicate Holds(m: OxideMachine, pc: Pc)
      reads this, m
    {
      s.proc.Busy? && s.proc.cur == m.Value() && s.proc.pc == pc
    }

    constructor (initial: State)
      requires Init(initial)
      ensures Valid() && start == initial && log == []
    {
      start, log, s := initial, [], initial;
    }

    method Do(e: Event)
      requires Valid() && Legal(s, e)
      modifies this
      ensures Valid() && log == old(log) + [e] && s == Apply(old(s), e)
    {
      Snoc(start, log, e);
      s := Apply(s, e);
      log := log + [e];
    }

    /** Any number of moves by users and the cloud. */
    method Interfere()
      requires Valid()
      modifies this
      ensures Valid() && old(log) <= log && s.proc == old(s.proc) && s.pool == old(s.pool)
      ensures forall k :: |old(log)| <= k < |log| ==> IsEnvironment(log[k])
    {
      var moves: nat := *;
      while moves > 0
        invariant Valid() && old(log) <= log && s.proc == old(s.proc) && s.pool == old(s.pool)
        invariant forall k :: |old(log)| <= k < |log| ==> IsEnvironment(log[k])
      {
        var e: Event := *;
        if IsEnvironment(e) && Legal(s, e) {
          Do(e);
        }
        moves := moves - 1;
      }
    }

    method Get() returns (o: Option<Obj>)
      requires Valid() && s.proc.Idle?
      modifies this
      ensures Valid() && old(log) <= log && s.proc.Idle? && o == s.obj
      ensures forall k :: |old(log)| <= k < |log| ==> IsEnvironment(log[k])
    {
      Interfere();
      o := s.obj;
    }

    /** Reads the OxideCluster and constructs the Oxide client. */
    method BuildClient(o: Obj) returns (built: bool)
      requires Valid() && s.proc.Idle? && s.obj == Some(o)
      modifies this
      ensures Valid() && old(log) <= log && s.proc == OnEnter(o, built)
    {
      built := *;
      Do(Enter(built));
    }

    /** Writes the spec and the status back; either half may get lost. */
    method Patch(m: OxideMachine, verdict: Verdict) returns (ok: bool)
      requires Valid() && Holds(m, End(verdict))
      modifies this
      ensures Valid() && s.proc.Idle? && old(log) < log
      ensures EndsWith(verdict, ok)
    {
      Interfere();
      var specOk, statusOk := *, *;
      ghost var before := log;
      Do(Event.Patch(specOk, statusOk));
      ok := specOk && statusOk;
      assert log[..|log| - 1] == before;
    }

    /** The last step was the patch of a reconcile that had come to `verdict`, and `ok` says
        whether both halves of it landed. */
    ghost predicate EndsWith(verdict: Verdict, ok: bool)
      requires Valid()
      reads this
    {
      var n := |log|;
      && n > 0 && log[n - 1].Patch?
      && At(After(start, log[..n - 1]), End(verdict))
      && ok == (log[n - 1].specOk && log[n - 1].statusOk)
    }

    method ReadBootstrap() returns (data: BootstrapData)
      requires Valid() && At(s, Begin) && s.proc.cur.pid == ""
      modifies this
      ensures Valid() && old(log) <= log && s.pool == old(s.pool)
      ensures s.proc == OnBootstrap(old(s.proc.orig), old(s.proc.cur), data)
    {
      Interfere();
      data := *;
      Do(Bootstrap(data));
    }

    method InstanceView() returns (r: Reply<Instance>)
      requires Valid() && ((At(s, Begin) && s.proc.cur.pid != "") || At(s, Adopting) || At(s, DelView))
      modifies this
      ensures Valid() && old(log) <= log && s.pool == old(s.pool)
      ensures s.proc == if old(s.proc.pc).DelView? then OnDelView(old(s.proc.orig), old(s.proc.cur), r)
                        else OnNormalView(old(s.proc.orig), old(s.proc.cur), old(s.proc.pc).Adopting?, r)
    {
      Interfere();
      var up := *;
      r := ViewReply(s.inst, up);
      Do(Event.InstanceView(up));
    }

    method InstanceCreate() returns (r: Reply<Instance>)
      requires Valid() && At(s, ReadyToCreate)
      modifies this
      ensures Valid() && old(log) <= log && s.pool == old(s.pool)
      ensures s.proc == OnCreate(old(s.proc.orig), old(s.proc.cur), r)
    {
      Interfere();
      var delivery: Delivery, id: string, run: RunState := *, *, *;
      var e := Event.InstanceCreate(delivery, id, run);
      if !Legal(s, e) {
        e := Event.InstanceCreate(Dropped, id, Running);
      }
      r := CreateReply(s, e);
      Do(e);
    }

    method InstanceStart() returns (r: Reply<Instance>)
      requires Valid() && s.proc.Busy? && s.proc.pc.Starting?
      modifies this
      ensures Valid() && old(log) <= log && s.pool == old(s.pool)
      ensures s.proc == OnStart(old(s.proc.orig), old(s.proc.cur), r)
    {
      Interfere();
      var delivery: Delivery, run: RunState := *, *;
      if run.Destroyed? {
        run := Running;
      }
      var id := s.proc.pc.instance.id;
      r := Answer(delivery, CanStart(s, id), Instance(id, run));
      Do(Event.InstanceStart(delivery, run));
    }

    method InstanceNetworkInterfaceListAllPages() returns (nics: Option<seq<IpStack>>)
      requires Valid() && s.proc.Busy? && s.proc.pc.ListingNics?
      modifies this
      ensures Valid() && old(log) <= log && s.pool == old(s.pool)
      ensures s.proc == OnNics(s.pool, old(s.proc.orig), old(s.proc.cur), old(s.proc.pc.instance), nics)
    {
      Interfere();
      nics := *;
      Do(NicList(nics));
    }

    method InstanceExternalIpList() returns (ips: Option<seq<ExternalIp>>)
      requires Valid() && s.proc.Busy? && s.proc.pc.ListingIps?
      modifies this
      ensures Valid() && old(log) <= log
      ensures s.proc == OnIps(old(s.proc.orig), old(s.proc.cur), old(s.proc.pc.nicAddrs), ips)
    {
      Interfere();
      ips := *;
      Do(ExternalIpList(ips));
    }

    method InstanceStop() returns (r: Reply<Instance>)
      requires Valid() && s.proc.Busy? && s.proc.pc.DelSeen? && s.proc.pc.instance.run.Running?
      modifies this
      ensures Valid() && old(log) <= log
      ensures s.proc == OnStop(old(s.proc.orig), old(s.proc.cur), r)
    {
      Interfere();
      var delivery := *;
      r := StopReply(s, Event.InstanceStop(delivery));
      Do(Event.InstanceStop(delivery));
    }

    method InstanceDelete() returns (r: Reply<()>)
      requires Valid() && s.proc.Busy? && s.proc.pc.DelSeen? && !s.proc.pc.instance.run.Running?
      modifies this
      ensures Valid() && old(log) <= log
      ensures s.proc == OnDelete(old(s.proc.orig), old(s.proc.cur), r)
    {
      Interfere();
      var delivery, reaped := *, *;
      r := DeleteReply(s, Event.InstanceDelete(delivery, reaped));
      Do(Event.InstanceDelete(delivery, reaped));
    }

    method DiskView() returns (r: Reply<DiskState>)
      requires Valid() && At(s, DelDisk)
      modifies this
      ensures Valid() && old(log) <= log
      ensures s.proc == OnDiskView(old(s.proc.orig), old(s.proc.cur), r)
    {
      Interfere();
      var up := *;
      r := ViewReply(s.disk, up);
      Do(Event.DiskView(up));
    }

    method DiskDelete() returns (r: Reply<()>)
      requires Valid() && s.proc.Busy? && s.proc.pc.DelDiskSeen?
      modifies this
      ensures Valid() && old(log) <= log
      ensures s.proc == OnDiskDelete(old(s.proc.orig), old(s.proc.cur), r)
    {
      Interfere();
      var delivery := *;
      r := DiskDeleteReply(s, Event.DiskDelete(delivery));
      Do(Event.DiskDelete(delivery));
    }
  }

  /** Creates the instance, or adopts the one a create request conflicts with. `None` means
      waiting for bootstrap data. */
  method EnsureInstance(w: World, m: OxideMachine) returns (r: Result<Option<Instance>, ()>)
    requires w.Valid() && w.Holds(m, Begin)
    modifies w, m
    ensures w.Valid() && old(w.log) <= w.log && w.s.pool == old(w.s.pool)
    ensures r.Failure? ==> w.Holds(m, End(Errored))
    ensures r == Success(None) ==> w.Holds(m, End(Finished))
    ensures r.Success? && r.value.Some? ==> w.s.proc == OnInstance(old(w.s.proc.orig), m.Value(), r.value.value)
    ensures r.Success? && r.value.Some? && old(m.pid) == "" ==> m.pid == ProviderId.NewProviderID(r.value.value.id)
    ensures old(m.pid) != "" || r.Failure? ==> m.pid == old(m.pid)
  {
    if m.pid != "" {
      var view := w.InstanceView();
      if !view.Ok? {
        return Failure(());
      }
      return Success(Some(view.value));
    }
    var data := w.ReadBootstrap();
    if data.NotSet? {
      m.ready := False(WaitingForBootstrapData);
      return Success(None);
    }
    if data.Unreadable? {
      return Failure(());
    }
    var created := w.InstanceCreate();
    if !created.Ok? {
      if !created.AlreadyExists? {
        return Failure(());
      }
      created := w.InstanceView();
      if !created.Ok? {
        return Failure(());
      }
    }
    m.pid := ProviderId.NewProviderID(created.value.id);
    return Success(Some(created.value));
  }

  datatype Running = Up | NotUp(instance: Instance) | StartFailed

  /** Starts a stopped instance; anything but a running one means another reconcile. */
  method EnsureInstanceRunning(w: World, instance: Instance, ghost cur: Obj) returns (r: Running)
    requires w.Valid() && w.s.proc.Busy? && w.s.proc == OnInstance(w.s.proc.orig, cur, instance)
    modifies w
    ensures w.Valid() && old(w.log) <= w.log && w.s.pool == old(w.s.pool)
    ensures r.Up? <==> instance.run.Running?
    ensures var orig := old(w.s.proc.orig);
            w.s.proc == match r
                        case Up => OnInstance(orig, cur, instance)
                        case NotUp(i) => Busy(orig, cur.(ready := False(ReadyReason(Some(i)))), End(RequeueAfter10s))
                        case StartFailed => Busy(orig, cur, End(Errored))
    ensures !instance.run.Stopped? ==> w.log == old(w.log) && (r.NotUp? ==> r.instance == instance)
  {
    match instance.run
    case Stopped =>
      var started := w.InstanceStart();
      if !started.Ok? {
        return StartFailed;
      }
      return NotUp(started.value);
    case Running => return Up;
    case _ => return NotUp(instance);
  }

  datatype Deletion = Gone | StillThere(instance: Option<Instance>) | DeletionFailed

  /** Stops a running instance, destroys a stopped or failed one, waits on any other. */
  method EnsureInstanceDeleted(w: World) returns (r: Deletion)
    requires w.Valid() && At(w.s, DelView)
    modifies w
    ensures w.Valid() && old(w.log) <= w.log
    ensures var (orig, cur) := (old(w.s.proc.orig), old(w.s.proc.cur));
            w.s.proc == match r
                        case Gone => OnInstanceAbsent(orig, cur)
                        case StillThere(i) => Busy(orig, cur.(ready := False(ReadyReason(i))), End(RequeueAfter10s))
                        case DeletionFailed => Busy(orig, cur, End(Errored))
  {
    var view := w.InstanceView();
    if !view.Ok? {
      if view.NotFound? {
        return Gone;
      }
      return DeletionFailed;
    }
    match view.value.run
    case Running =>
      var stopped := w.InstanceStop();
      if !stopped.Ok? {
        if stopped.NotFound? {
          return Gone;
        }
        return DeletionFailed;
      }
      return StillThere(Some(stopped.value));
    case Stopped | Failed =>
      var deleted := w.InstanceDelete();
      if !deleted.Ok? {
        if deleted.NotFound? {
          return Gone;
        }
        return DeletionFailed;
      }
      return StillThere(None);
    case _ =>
      return StillThere(Some(view.value));
  }

  /** Deletes a detached or faulted boot disk. `Success(false)` means it is not there yet. */
  method EnsureDiskDeleted(w: World) returns (r: Result<bool, ()>)
    requires w.Valid() && At(w.s, DelDisk)
    modifies w
    ensures w.Valid() && old(w.log) <= w.log
    ensures var (orig, cur) := (old(w.s.proc.orig), old(w.s.proc.cur));
            w.s.proc == match r
                        case Success(true) => OnAllGone(orig, cur)
                        case Success(false) => Busy(orig, cur, End(RequeueAfter10s))
                        case Failure(_) => Busy(orig, cur, End(Errored))
  {
    var view := w.DiskView();
    if !view.Ok? {
      if view.NotFound? {
        return Success(true);
      }
      return Failure(());
    }
    if Deletable(view.value) {
      var deleted := w.DiskDelete();
      if !deleted.Ok? && !deleted.NotFound? {
        return Failure(());
      }
      return Success(true);
    }
    return Success(false);
  }

  method HandleDelete(w: World, m: OxideMachine) returns (v: Verdict)
    requires w.Valid() && w.Holds(m, DelView)
    modifies w, m
    ensures w.Valid() && old(w.log) <= w.log && w.Holds(m, End(v))
    ensures m.fin == old(m.fin) || (v.Finished? && !m.fin)
    ensures !v.Errored? ==> m.ready.False?
  {
    var instance := EnsureInstanceDeleted(w);
    if instance.DeletionFailed? {
      return Errored;
    }
    m.ready := False(ReadyReason(if instance.Gone? then None else instance.instance));
    if !instance.Gone? {
      return RequeueAfter10s;
    }
    var disk := EnsureDiskDeleted(w);
    if disk.Failure? {
      return Errored;
    }
    if !disk.value {
      return RequeueAfter10s;
    }
    m.fin := false;
    return Finished;
  }

  /** The address list is read once, when it is still empty. */
  method PopulateAddresses(w: World, m: OxideMachine, instance: Instance) returns (v: Verdict)
    requires w.Valid() && w.Holds(m, ListingNics(instance))
    modifies w, m
    ensures w.Valid() && old(w.log) <= w.log && w.Holds(m, End(v))
    ensures v.Finished? || v.Errored?
    ensures v.Errored? ==> m.addrs == old(m.addrs)
    ensures m.ready == old(m.ready) && m.provisioned == old(m.provisioned) && m.pid == old(m.pid)
  {
    var nics := w.InstanceNetworkInterfaceListAllPages();
    if nics.None? {
      return Errored;
    }
    var addresses := Addresses.MachineAddressesFromNICs(nics.value);
    if addresses.None? {
      return Errored;
    }
    var all := addresses.value;
    if w.s.pool {
      var ips := w.InstanceExternalIpList();
      if ips.None? {
        return Errored;
      }
      var ipAddresses := Addresses.MachineAddressesFromIPs(ips.value);
      all := all + ipAddresses;
    }
    m.addrs := all;
    return Finished;
  }

  /** The instance is running: the machine is ready and provisioned, and its addresses are looked
      up if they are not known. */
  method RecordRunning(w: World, m: OxideMachine, instance: Instance) returns (v: Verdict)
    requires w.Valid() && instance.run.Running?
    requires w.s.proc.Busy? && w.s.proc == OnInstance(w.s.proc.orig, m.Value(), instance)
    modifies w, m
    ensures w.Valid() && old(w.log) <= w.log && w.Holds(m, End(v))
    ensures m.ready == True(ReadyReason(Some(instance))) && m.provisioned == Some(true) && m.pid == old(m.pid)
    ensures old(m.addrs) != [] ==> v.Finished? && m.addrs == old(m.addrs)
  {
    m.ready := True(ReadyReason(Some(instance)));
    m.provisioned := Some(true);
    if |m.addrs| == 0 {
      v := PopulateAddresses(w, m, instance);
      return;
    }
    return Finished;
  }

  /** What lies between reading the object and patching it. */
  method ReconcileObject(w: World, m: OxideMachine) returns (v: Verdict)
    requires w.Valid() && w.s.proc == OnEnter(m.Value(), true)
    modifies w, m
    ensures w.Valid() && old(w.log) <= w.log && w.Holds(m, End(v))
  {
    if m.deleting {
      v := HandleDelete(w, m);
      return;
    }
    m.fin := true;
    var ensured := EnsureInstance(w, m);
    if ensured.Failure? {
      return Errored;
    }
    if ensured.value.None? {
      return Finished;
    }
    var instance := ensured.value.value;
    var running := EnsureInstanceRunning(w, instance, m.Value());
    if running.StartFailed? {
      return Errored;
    }
    if running.NotUp? {
      m.ready := False(ReadyReason(Some(running.instance)));
      return RequeueAfter10s;
    }
    v := RecordRunning(w, m, instance);
  }

  /** One reconcile: every call it makes is a step of the model. It ends with a patch, and its
      verdict is then the one it had come to, or an error if half of the patch was lost; or it
      ends before anything is changed. */
  method Reconcile(w: World) returns (v: Verdict)
    requires w.Valid() && w.s.proc.Idle?
    modifies w
    ensures w.Valid() && old(w.log) <= w.log && w.s.proc.Idle?
    ensures || (|old(w.log)| < |w.log| && w.EndsWith(v, true))
            || (|old(w.log)| < |w.log| && v.Errored? && exists verdict :: w.EndsWith(verdict, false))
            || (forall k :: |old(w.log)| <= k < |w.log| ==> IsEnvironment(w.log[k]))
  {
    var read := w.Get();
    if read.None? {
      return Finished;
    }
    // No owner yet, paused, or one of these lookups failed: stop before anything is changed.
    var gate: Option<Verdict> := *;
    if gate.Some? {
      return gate.value;
    }
    var m := new OxideMachine(read.value);
    var built := w.BuildClient(read.value);
    if built {
      v := ReconcileObject(w, m);
    } else {
      v := Errored;
    }
    var ok := w.Patch(m, v);
    if !ok {
      v := Errored;
    }
  }
}
