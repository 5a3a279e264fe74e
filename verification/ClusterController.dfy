/** The OxideCluster reconciler as imperative code, over a world like the machine
    controller's: every call it makes is proved to be a step of the cluster model. */
module ClusterController {
  import opened Basics
  import opened Cloud
  import opened Attachment
  import opened ClusterModel
  import ProviderId

  class OxideCluster {
    const deleting: bool
    var fin: bool
    var host: string
    var port: nat
    var provisioned: Option<bool>
    var ready: Condition
    var attached: Condition

    function Value(): Obj
      reads this
    {
      Obj(fin, deleting, host, port, provisioned, ready, attached)
    }

    constructor (o: Obj)
      ensures Value() == o
    {
      deleting := o.deleting;
      fin, host, port := o.fin, o.host, o.port;
      provisioned, ready, attached := o.provisioned, o.ready, o.attached;
    }
  }

  class World {
    const valid: UuidCheck
    ghost const start: State
    ghost var log: seq<Event>
    var s: State

    ghost predicate Valid()
      reads this
    {
      LegalRun(valid, start, log) && s == After(valid, start, log)
    }

    /** The reconcile in flight holds `c` and is at `pc`. */
    ghost predicate Holds(c: OxideCluster, pc: Pc)
      reads this, c
    {
      s.proc.Busy? && s.proc.cur == c.Value() && s.proc.pc == pc
    }

    constructor (uuidCheck: UuidCheck, initial: State)
      requires Init(initial)
      ensures Valid() && start == initial && log == [] && valid == uuidCheck
    {
      valid, start, log, s := uuidCheck, initial, [], initial;
    }

    method Do(e: Event)
      requires Valid() && Legal(s, e)
      modifies this
      ensures Valid() && log == old(log) + [e] && s == Apply(valid, old(s), e)
    {
      Snoc(valid, start, log, e);
      s := Apply(valid, s, e);
      log := log + [e];
    }

    predicate SameWishes(t: State)
      reads this
    {
      s.pool == t.pool && s.ipType == t.ipType
    }

    /** Any number of moves by users, the cloud, and whoever else uses the IP. */
    method Interfere()
      requires Valid()
      modifies this
      ensures Valid() && old(log) <= log && s.proc == old(s.proc) && SameWishes(old(s))
      ensures forall k :: |old(log)| <= k < |log| ==> IsEnvironment(log[k])
    {
      var moves: nat := *;
      while moves > 0
        invariant Valid() && old(log) <= log && s.proc == old(s.proc) && SameWishes(old(s))
        invariant forall k :: |old(log)| <= k < |log| ==> IsEnvironment(log[k])
      {
        var e: Event := *;
        if IsEnvironment(e) && Legal(s, e) {
          Do(e);
        }
        moves := moves - 1;
      }
    }

    method Get() returns (o: Option<Obj>)
      requires Valid() && s.proc.Idle?
      modifies this
      ensures Valid() && old(log) <= log && s.proc.Idle? && o == s.obj
      ensures forall k :: |old(log)| <= k < |log| ==> IsEnvironment(log[k])
    {
      Interfere();
      o := s.obj;
    }

    /** Constructs the Oxide client; `ownerDeleting` is the owner Cluster's deletion mark. */
    method BuildClient(o: Obj, ownerDeleting: bool) returns (built: bool)
      requires Valid() && s.proc.Idle? && s.obj == Some(o)
      modifies this
      ensures Valid() && old(log) <= log && s.proc == OnEnter(o, built, ownerDeleting)
    {
      built := *;
      Do(Enter(built, ownerDeleting));
    }

    method Patch(c: OxideCluster, verdict: Verdict) returns (ok: bool)
      requires Valid() && Holds(c, End(verdict))
      modifies this
      ensures Valid() && s.proc.Idle? && old(log) < log
      ensures EndsWith(verdict, ok)
    {
      Interfere();
      var specOk, statusOk := *, *;
      ghost var before := log;
      Do(Event.Patch(specOk, statusOk));
      ok := specOk && statusOk;
      assert log[..|log| - 1] == before;
    }

    /** The last step was the patch of a reconcile that had come to `verdict`, and `ok` says
        whether both halves of it landed. */
    ghost predicate EndsWith(verdict: Verdict, ok: bool)
      requires Valid()
      reads this
    {
      var n := |log|;
      && n > 0 && log[n - 1].Patch?
      && At(After(valid, start, log[..n - 1]), End(verdict))
      && ok == (log[n - 1].specOk && log[n - 1].statusOk)
    }

    method FloatingIpView() returns (r: Reply<Fip>)
      requires Valid() && At(s, LookingUpIp)
      modifies this
      ensures Valid() && old(log) <= log && SameWishes(old(s))
      ensures s.proc == OnIpView(old(s.proc.orig), old(s.proc.cur), r)
    {
      Interfere();
      var up := *;
      r := ViewReply(s.fip, up);
      Do(IpView(up));
    }

    /** The cloud picks an address the allocator allows, or the request fails. */
    method FloatingIpCreate(allocator: Allocator) returns (r: Reply<Fip>)
      requires Valid() && At(s, CreatingIp)
      requires allocator == FloatingIPAllocator(s.proc.cur.host, s.pool, s.ipType)
      modifies this
      ensures Valid() && old(log) <= log
      ensures s.proc == OnIpCreate(old(s.proc.orig), old(s.proc.cur), r)
      ensures r.Ok? ==> Honours(allocator, r.value.addr, r.value.source) && r.value.holder == ""
    {
      Interfere();
      var delivery: Delivery, addr: string, source: Source := *, *, *;
      if !Honours(allocator, addr, source) {
        delivery := Dropped;
        match allocator
        case Explicit(ip) => addr := ip;
        case FromPool(pool) => addr, source := "a", Pool(pool);
        case FromDefaultPool(ipType) => addr, source := "a", DefaultPool(ipType);
      }
      r := Answer(delivery, s.fip.None?, Fip(addr, "", source));
      Do(IpCreate(delivery, addr, source));
    }

    method FloatingIpDelete() returns (r: Reply<()>)
      requires Valid() && At(s, DeletingIp)
      modifies this
      ensures Valid() && old(log) <= log
      ensures s.proc == OnIpDelete(old(s.proc.orig), old(s.proc.cur), r)
    {
      Interfere();
      var delivery := *;
      r := IpDeleteReply(s, delivery);
      Do(IpDelete(delivery));
    }

    method ListControlPlaneMachines() returns (ms: Option<seq<MachineView>>)
      requires Valid() && s.proc.Busy? && s.proc.pc.Listing?
      modifies this
      ensures Valid() && old(log) <= log
      ensures s.proc == OnList(valid, old(s.proc.orig), old(s.proc.cur), old(s.proc.pc.ip), ms)
    {
      Interfere();
      ms := *;
      Do(ListMachines(ms));
    }

    method FloatingIpDetach() returns (r: Reply<Fip>)
      requires Valid() && s.proc.Busy? && s.proc.pc.Detaching?
      modifies this
      ensures Valid() && old(log) <= log
      ensures s.proc == OnDetach(old(s.proc.orig), old(s.proc.cur), old(s.proc.pc.target), r)
      ensures r.Ok? ==> r.value.holder == ""
    {
      Interfere();
      var delivery := *;
      r := DetachReply(s, delivery);
      Do(IpDetach(delivery));
    }

    method FloatingIpAttach(parent: string) returns (r: Reply<Fip>)
      requires Valid() && s.proc.Busy? && s.proc.pc.Attaching? && s.proc.pc.target == parent
      modifies this
      ensures Valid() && old(log) <= log
      ensures s.proc == OnAttach(old(s.proc.orig), old(s.proc.cur), r)
      ensures r.Ok? ==> r.value.holder == parent
    {
      Interfere();
      var delivery := *;
      r := AttachReply(s, delivery, parent);
      Do(IpAttach(delivery));
    }
  }

  // ---- The two scans ----------------------------------------------------------------------

  /** The candidate target: the first provisioned machine that is not being deleted, "" if
      there is none. */
  method FindTarget(valid: UuidCheck, machines: seq<MachineView>) returns (r: Result<string, ProviderId.ParseError>)
    ensures r == TargetId(valid, machines)
  {
    for i := 0 to |machines|
      invariant forall k :: 0 <= k < i ==> !Candidate(machines[k])
    {
      var machine := machines[i];
      if machine.pid == "" {
        continue;
      }
      if machine.provisioned.None? || !machine.provisioned.value {
        continue;
      }
      if machine.deleting {
        continue;
      }
      return ProviderId.InstanceIDFromProviderID(valid, machine.pid);
    }
    return Success("");
  }

  /** Whether the IP has to be moved, given the target the first scan found. */
  method ShouldAttach(valid: UuidCheck, machines: seq<MachineView>, holder: string, target: string)
    returns (r: Result<bool, ProviderId.ParseError>)
    requires TargetId(valid, machines) == Success(target)
    ensures Decide(valid, machines, holder) ==
            match r
            case Failure(_) => BadProviderId
            case Success(true) => Move(target)
            case Success(false) => Stay
  {
    var shouldAttach := true;
    if holder != "" {
      for i := 0 to |machines|
        invariant shouldAttach
        invariant forall k :: 0 <= k < i ==> !Unreadable(valid, machines[k]) && !Matches(valid, machines[k], holder)
      {
        var machine := machines[i];
        if machine.pid == "" {
          continue;
        }
        var instanceId := ProviderId.InstanceIDFromProviderID(valid, machine.pid);
        if instanceId.Failure? {
          return Failure(instanceId.error);
        }
        if instanceId.value != holder {
          continue;
        }
        shouldAttach := false;
        if machine.deleting && target != "" {
          shouldAttach := true;
        }
        break;
      }
    }
    return Success(shouldAttach);
  }

  /** Keeps the IP on a live control plane machine. Its calls are the model's, and it sets the
      condition true exactly when the IP it ends with is attached. */
  method ReconcileFloatingIPAttachment(w: World, c: OxideCluster, viewed: Fip) returns (v: Verdict)
    requires w.Valid() && w.Holds(c, Listing(viewed))
    modifies w, c
    ensures w.Valid() && old(w.log) <= w.log && w.Holds(c, End(v))
    ensures v.Errored? ==> c.Value() == old(c.Value())
    ensures v.Finished? || v.Errored?
  {
    var ip := viewed;
    var listed := w.ListControlPlaneMachines();
    if listed.None? {
      return Errored;
    }
    var machines := listed.value;
    var target := FindTarget(w.valid, machines);
    if target.Failure? {
      return Errored;
    }
    var targetInstanceId := target.value;
    var shouldAttach := ShouldAttach(w.valid, machines, ip.holder, targetInstanceId);
    if shouldAttach.Failure? {
      return Errored;
    }
    if shouldAttach.value {
      if ip.holder != "" {
        var detached := w.FloatingIpDetach();
        if !detached.Ok? {
          return Errored;
        }
        ip := detached.value;
      }
      if targetInstanceId != "" {
        var attached := w.FloatingIpAttach(targetInstanceId);
        if !attached.Ok? {
          return Errored;
        }
        ip := attached.value;
      }
    }
    if ip.holder != "" {
      c.attached := True(FloatingIPAttached);
    } else {
      c.attached := False(WaitingForControlPlaneMachine);
    }
    return Finished;
  }

  /** Looks the IP up, and creates it if there is none. */
  method EnsureFloatingIPExists(w: World, c: OxideCluster) returns (r: Result<Fip, ()>)
    requires w.Valid() && w.Holds(c, LookingUpIp)
    modifies w
    ensures w.Valid() && old(w.log) <= w.log
    ensures w.s.proc == match r
                        case Success(ip) => Busy(old(w.s.proc.orig), WithEndpoint(c.Value(), ip), Listing(ip))
                        case Failure(_) => Busy(old(w.s.proc.orig), c.Value(), End(Errored))
  {
    var view := w.FloatingIpView();
    if !view.Ok? {
      if !view.NotFound? {
        return Failure(());
      }
      view := w.FloatingIpCreate(FloatingIPAllocator(c.host, w.s.pool, w.s.ipType));
      if !view.Ok? {
        return Failure(());
      }
    }
    return Success(view.value);
  }

  /** Deletes the IP; one that is already gone will do. */
  method EnsureFloatingIPDeleted(w: World) returns (deleted: bool)
    requires w.Valid() && At(w.s, DeletingIp)
    modifies w
    ensures w.Valid() && old(w.log) <= w.log
    ensures var (orig, cur) := (old(w.s.proc.orig), old(w.s.proc.cur));
            w.s.proc == if deleted then Busy(orig, cur.(fin := false), End(Finished)) else Busy(orig, cur, End(Errored))
  {
    var r := w.FloatingIpDelete();
    if !r.Ok? {
      if !r.NotFound? {
        return false;
      }
    }
    return true;
  }

  /** What lies between constructing the client and patching the object. */
  method ReconcileObject(w: World, c: OxideCluster, ownerDeleting: bool) returns (v: Verdict)
    requires w.Valid() && w.s.proc == OnEnter(c.Value(), true, ownerDeleting)
    modifies w, c
    ensures w.Valid() && old(w.log) <= w.log && w.Holds(c, End(v))
  {
    if c.deleting {
      var deleted := EnsureFloatingIPDeleted(w);
      if !deleted {
        return Errored;
      }
      c.fin := false;
      return Finished;
    } else if ownerDeleting {
      return Finished;
    }
    c.fin := true;
    var ensured := EnsureFloatingIPExists(w, c);
    if ensured.Failure? {
      return Errored;
    }
    var ip := ensured.value;
    c.host := ip.addr;
    if c.port == 0 {
      c.port := 6443;
    }
    c.provisioned := Some(true);
    c.ready := True(FloatingIPProvisioned);
    v := ReconcileFloatingIPAttachment(w, c, ip);
  }

  /** One reconcile: it ends with a patch, and its verdict is then the one it had come to, or an
      error if half of the patch was lost; or it ends before anything is changed. */
  method Reconcile(w: World) returns (v: Verdict)
    requires w.Valid() && w.s.proc.Idle?
    modifies w
    ensures w.Valid() && old(w.log) <= w.log && w.s.proc.Idle?
    ensures || (|old(w.log)| < |w.log| && w.EndsWith(v, true))
            || (|old(w.log)| < |w.log| && v.Errored? && exists verdict :: w.EndsWith(verdict, false))
            || (forall k :: |old(w.log)| <= k < |w.log| ==> IsEnvironment(w.log[k]))
  {
    var read := w.Get();
    if read.None? {
      return Finished;
    }
    // No owner yet, paused, or one of these lookups failed: stop before anything is changed.
    var gate: Option<Verdict> := *;
    if gate.Some? {
      return gate.value;
    }
    var ownerDeleting: bool := *;
    var c := new OxideCluster(read.value);
    var built := w.BuildClient(read.value, ownerDeleting);
    if built {
      v := ReconcileObject(w, c, ownerDeleting);
    } else {
      v := Errored;
    }
    var ok := w.Patch(c, v);
    if !ok {
      v := Errored;
    }
  }
}
