/** What every step of a machine keeps: first in all runs, then in runs where nobody else
      touches the machine's instance and boot disk. */
module MachineInvariants {
  import opened Basics
  import opened Cloud
  import opened MachineModel
  import ProviderId

  predicate OnNormalPath(p: Proc) {
    p.Busy? && (p.pc.Begin? || p.pc.ReadyToCreate? || p.pc.Adopting? ||
                p.pc.Starting? || p.pc.ListingNics? || p.pc.ListingIps?)
  }

  predicate OnDeletionPath(p: Proc) {
    p.Busy? && (p.pc.DelView? || p.pc.DelSeen? || p.pc.DelDisk? || p.pc.DelDiskSeen?)
  }

  // ---- All runs ---------------------------------------------------------------------------

  /** Fields that only ever move one way. */
  predicate Evolves(before: Obj, after: Obj) {
    && (before.pid != "" ==> after.pid == before.pid)
    && (before.provisioned == Some(true) ==> after.provisioned == Some(true))
    && (before.addrs != [] ==> after.addrs == before.addrs)
    && (before.deleting ==> after.deleting)
  }

  /** A provider ID names an instance this machine has had. */
  predicate Names(ids: set<string>, pid: string) {
    pid == "" || exists id :: id in ids && pid == ProviderId.NewProviderID(id)
  }

  predicate PcOk(ids: set<string>, orig: Obj, cur: Obj, pc: Pc) {
    match pc
    case Begin => cur.pid == orig.pid
    case ReadyToCreate => orig.pid == ""
    case Adopting => orig.pid == ""
    case Starting(i) => i.id in ids
    case ListingNics(i) => i.id in ids && orig.addrs == []
    case ListingIps(i, _) => i.id in ids && orig.addrs == []
    case _ => true
  }

  /** What the reconcile in flight makes of its copy of the object. */
  predicate CopyOk(ids: set<string>, p: Proc) {
    p.Busy? ==>
      && Names(ids, p.cur.pid)
      && Evolves(p.orig, p.cur) && p.cur.deleting == p.orig.deleting
      && p.cur.provisioned != Some(false)
      && PcOk(ids, p.orig, p.cur, p.pc)
      && (OnNormalPath(p) ==> !p.orig.deleting && p.cur.fin)
      && (OnDeletionPath(p) ==> p.orig.deleting && p.orig.fin && p.cur.fin)
      && (p.orig.fin && !p.cur.fin ==> p.orig.deleting)
  }

  /** The copy it started from is still faithful: only the deletion mark can be stale. */
  predicate ProcOk(s: State) {
    && CopyOk(s.ids, s.proc)
    && (s.proc.Busy? ==>
          && (s.proc.orig.deleting ==> s.obj.None? || s.obj.value.deleting)
          && (s.obj.Some? ==> s.obj.value.(deleting := s.proc.orig.deleting) == s.proc.orig))
  }

  predicate Inv(s: State) {
    && (s.inst.Some? ==> s.inst.value.id in s.ids)
    && (s.obj.None? ==> s.asked)
    && (s.obj.Some? ==>
          && Names(s.ids, s.obj.value.pid)
          && s.obj.value.provisioned != Some(false)
          && (s.obj.value.deleting ==> s.obj.value.fin)
          && (s.obj.value.deleting <==> s.asked))
    && ProcOk(s)
  }

  /** One step keeps the invariant, forgets no id, and moves the object's fields one way. */
  predicate Keeps(s: State, e: Event)
    requires Legal(s, e)
  {
    var t := Apply(s, e);
    && Inv(t)
    && s.ids <= t.ids
    && (s.asked ==> t.asked)
    && (t.obj.Some? ==> s.obj.Some? && Evolves(s.obj.value, t.obj.value))
  }

  lemma EnvironmentKeeps(s: State, e: Event)
    requires Inv(s) && Legal(s, e) && IsEnvironment(e)
    ensures Keeps(s, e)
  {
  }

  lemma BoundaryKeeps(s: State, e: Event)
    requires Inv(s) && Legal(s, e) && (e.Enter? || e.Patch? || e.Crash?)
    ensures Keeps(s, e)
  {
  }

  predicate IsCall(e: Event) {
    !IsEnvironment(e) && !e.Enter? && !e.Patch? && !e.Crash?
  }

  /** A call changes nothing in Kubernetes; what is left to check is the in-memory copy. */
  lemma CallKeeps(s: State, e: Event)
    requires Inv(s) && Legal(s, e) && IsCall(e)
    requires var t := Apply(s, e); CopyOk(t.ids, t.proc) && t.proc.Busy? && t.proc.orig == s.proc.orig
    ensures Keeps(s, e)
  {
  }

  /** Whatever the answers to its requests, a deletion keeps the copy in order. */
  lemma AnswersCopy(ids: set<string>, orig: Obj, cur: Obj, pc: Pc, i: Reply<Instance>, gone: Reply<()>)
    requires OnDeletionPath(Busy(orig, cur, pc)) && CopyOk(ids, Busy(orig, cur, pc))
    ensures CopyOk(ids, OnDelView(orig, cur, i)) && CopyOk(ids, OnStop(orig, cur, i)) &&
            CopyOk(ids, OnDelete(orig, cur, gone))
  {
  }

  lemma DeletionViewCopies(s: State, e: Event)
    requires Inv(s) && Legal(s, e) && OnDeletionPath(s.proc) && e.InstanceView?
    ensures var t := Apply(s, e); CopyOk(t.ids, t.proc) && t.proc.Busy? && t.proc.orig == s.proc.orig
  {
    AnswersCopy(s.ids, s.proc.orig, s.proc.cur, s.proc.pc, ViewReply(s.inst, e.up), Error);
  }

  lemma StopCopies(s: State, e: Event)
    requires Inv(s) && Legal(s, e) && e.InstanceStop?
    ensures var t := Apply(s, e); CopyOk(t.ids, t.proc) && t.proc.Busy? && t.proc.orig == s.proc.orig
  {
    AnswersCopy(s.ids, s.proc.orig, s.proc.cur, s.proc.pc, StopReply(s, e), Error);
  }

  lemma DeleteCopies(s: State, e: Event)
    requires Inv(s) && Legal(s, e) && e.InstanceDelete?
    ensures var t := Apply(s, e); CopyOk(t.ids, t.proc) && t.proc.Busy? && t.proc.orig == s.proc.orig
  {
    AnswersCopy(s.ids, s.proc.orig, s.proc.cur, s.proc.pc, Error, DeleteReply(s, e));
  }

  lemma DiskDeletionCopies(s: State, e: Event)
    requires Inv(s) && Legal(s, e) && (e.DiskView? || e.DiskDelete?)
    ensures var t := Apply(s, e); CopyOk(t.ids, t.proc) && t.proc.Busy? && t.proc.orig == s.proc.orig
  {
  }

  lemma InstanceKnown(ids: set<string>, orig: Obj, cur: Obj, i: Instance)
    requires i.id in ids && cur.fin && !orig.deleting && CopyOk(ids, Busy(orig, cur, End(Finished)))
    ensures CopyOk(ids, OnInstance(orig, cur, i))
    ensures orig.pid == "" ==> CopyOk(ids, OnInstance(orig, cur.(pid := ProviderId.NewProviderID(i.id)), i))
  {
  }

  lemma ViewCopies(s: State, e: Event)
    requires Inv(s) && Legal(s, e) && OnNormalPath(s.proc) && e.InstanceView?
    ensures var t := Apply(s, e); CopyOk(t.ids, t.proc) && t.proc.Busy? && t.proc.orig == s.proc.orig
  {
    if s.inst.Some? {
      InstanceKnown(s.ids, s.proc.orig, s.proc.cur, s.inst.value);
    }
  }

  lemma CreateCopies(s: State, e: Event)
    requires Inv(s) && Legal(s, e) && e.InstanceCreate?
    ensures var t := Apply(s, e); CopyOk(t.ids, t.proc) && t.proc.Busy? && t.proc.orig == s.proc.orig
  {
    var (ids, orig, cur) := (Effect(s, e).ids, s.proc.orig, s.proc.cur);
    MoreIds(s.ids, ids, orig, cur);
    var reply := CreateReply(s, e);
    if reply.Ok? {
      assert reply.value == Instance(e.id, e.run) && e.id in ids;
      InstanceKnown(ids, orig, cur, reply.value);
    } else {
      FailedCreateCopies(ids, orig, cur, reply);
    }
  }

  lemma FailedCreateCopies(ids: set<string>, orig: Obj, cur: Obj, reply: Reply<Instance>)
    requires CopyOk(ids, Busy(orig, cur, ReadyToCreate)) && !reply.Ok?
    ensures CopyOk(ids, OnCreate(orig, cur, reply))
  {
  }

  lemma MoreIds(ids: set<string>, ids': set<string>, orig: Obj, cur: Obj)
    requires ids <= ids' && CopyOk(ids, Busy(orig, cur, ReadyToCreate))
    ensures CopyOk(ids', Busy(orig, cur, ReadyToCreate)) && CopyOk(ids', Busy(orig, cur, End(Finished)))
  {
  }

  lemma BootstrapCopies(s: State, e: Event)
    requires Inv(s) && Legal(s, e) && e.Bootstrap?
    ensures var t := Apply(s, e); CopyOk(t.ids, t.proc) && t.proc.Busy? && t.proc.orig == s.proc.orig
  {
  }

  lemma StartCopies(s: State, e: Event)
    requires Inv(s) && Legal(s, e) && e.InstanceStart?
    ensures var t := Apply(s, e); CopyOk(t.ids, t.proc) && t.proc.Busy? && t.proc.orig == s.proc.orig
  {
  }

  lemma NicsCopy(s: State, e: Event)
    requires Inv(s) && Legal(s, e) && e.NicList?
    ensures var t := Apply(s, e); CopyOk(t.ids, t.proc) && t.proc.Busy? && t.proc.orig == s.proc.orig
  {
  }

  lemma ExternalIpsCopy(s: State, e: Event)
    requires Inv(s) && Legal(s, e) && e.ExternalIpList?
    ensures var t := Apply(s, e); CopyOk(t.ids, t.proc) && t.proc.Busy? && t.proc.orig == s.proc.orig
  {
  }

  lemma InvStep(s: State, e: Event)
    requires Inv(s) && Legal(s, e)
    ensures Keeps(s, e)
  {
    if IsEnvironment(e) {
      EnvironmentKeeps(s, e);
    } else if !IsCall(e) {
      BoundaryKeeps(s, e);
    } else {
      if e.DiskView? || e.DiskDelete? {
        DiskDeletionCopies(s, e);
      } else if OnDeletionPath(s.proc) {
        if e.InstanceView? {
          DeletionViewCopies(s, e);
        } else if e.InstanceStop? {
          StopCopies(s, e);
        } else {
          DeleteCopies(s, e);
        }
      } else if e.InstanceView? {
        ViewCopies(s, e);
      } else if e.InstanceCreate? {
        CreateCopies(s, e);
      } else if e.Bootstrap? {
        BootstrapCopies(s, e);
      } else if e.InstanceStart? {
        StartCopies(s, e);
      } else if e.NicList? {
        NicsCopy(s, e);
      } else {
        ExternalIpsCopy(s, e);
      }
      CallKeeps(s, e);
    }
  }

  lemma {:induction false} InvRun(s: State, log: seq<Event>)
    requires Inv(s) && LegalRun(s, log)
    ensures Inv(After(s, log))
    ensures s.ids <= After(s, log).ids
    ensures s.asked ==> After(s, log).asked
    ensures After(s, log).obj.Some? ==> s.obj.Some? && Evolves(s.obj.value, After(s, log).obj.value)
  {
    if log != [] {
      InvRun(s, log[..|log| - 1]);
      InvStep(After(s, log[..|log| - 1]), log[|log| - 1]);
    }
  }

  lemma InitInv(s: State)
    requires Init(s)
    ensures Inv(s)
  {
  }

  // ---- What the finalizer protects, out-of-band changes or not ----------------------------

  predicate DroppingFinalizer(p: Proc) {
    p.Busy? && (p.pc.DelDisk? || p.pc.DelDiskSeen? || Dropped(p))
  }

  /** A recorded provider ID comes with a recorded finalizer, and a reconcile that is about to
      take the finalizer off has seen the recorded instance gone. */
  predicate Guarded(s: State) {
    && (s.obj.Some? && s.obj.value.pid != "" ==> s.obj.value.fin)
    && (s.proc.Busy? && s.proc.cur.pid != s.proc.orig.pid ==> s.proc.cur.fin && !s.proc.orig.deleting)
    && (DroppingFinalizer(s.proc) && s.inst.Some? ==> s.proc.orig.pid != ProviderId.NewProviderID(s.inst.value.id))
  }

  /** The instance `id` is gone for good once the object that recorded it is. */
  predicate GoneWithObject(s: State, id: string) {
    s.obj.None? && s.inst.Some? ==> s.inst.value.id != id
  }

  lemma GuardedEnvironment(s: State, e: Event)
    requires Inv(s) && Guarded(s) && Legal(s, e) && IsEnvironment(e)
    ensures Guarded(Apply(s, e))
  {
    if e.OobInstance? && s.proc.Busy? && s.proc.orig.pid == ProviderId.NewProviderID(e.id) {
      ProviderId.PrintIsInjective(e.id, "");
      var id :| id in s.ids && s.proc.cur.pid == ProviderId.NewProviderID(id);
      ProviderId.PrintIsInjective(id, e.id);
    }
  }

  lemma GuardedPatch(s: State, e: Event)
    requires Inv(s) && Guarded(s) && Legal(s, e) && (e.Patch? || e.Enter? || e.Crash?)
    ensures Guarded(Apply(s, e))
  {
  }

  lemma GuardedCall(s: State, e: Event)
    requires Inv(s) && Guarded(s) && Legal(s, e) && IsCall(e) && !OnDeletionPath(s.proc)
    ensures Guarded(Apply(s, e))
  {
  }

  lemma GuardedDeletion(s: State, e: Event)
    requires Inv(s) && Guarded(s) && Legal(s, e) && IsCall(e) && OnDeletionPath(s.proc)
    ensures Guarded(Apply(s, e))
  {
  }

  lemma GuardedStep(s: State, e: Event)
    requires Inv(s) && Guarded(s) && Legal(s, e)
    ensures Guarded(Apply(s, e))
  {
    if IsEnvironment(e) {
      GuardedEnvironment(s, e);
    } else if !IsCall(e) {
      GuardedPatch(s, e);
    } else if OnDeletionPath(s.proc) {
      GuardedDeletion(s, e);
    } else {
      GuardedCall(s, e);
    }
  }

  /** An object goes only after the instance it recorded, which never comes back. */
  lemma RecordOutlivesInstance(s: State, e: Event, id: string)
    requires Inv(s) && Guarded(s) && Legal(s, e) && id in s.ids
    requires if s.obj.Some? then s.obj.value.pid == ProviderId.NewProviderID(id) else GoneWithObject(s, id)
    ensures GoneWithObject(Apply(s, e), id)
  {
    ProviderId.PrintIsInjective(id, "");
  }

  // ---- Deletion is for good ---------------------------------------------------------------

  /** Deletion was requested and the reconcile in flight, if any, is not one that builds. */
  predicate Tearing(s: State) {
    (s.obj.None? || s.obj.value.deleting) && !OnNormalPath(s.proc)
  }

  /** Once nothing builds any more, nothing ever will. */
  lemma TearingStep(s: State, e: Event)
    requires Inv(s) && Legal(s, e) && Tearing(s)
    ensures Tearing(Apply(s, e))
  {
  }

  lemma {:induction false} TearingRun(s: State, log: seq<Event>)
    requires Inv(s) && Tearing(s) && LegalRun(s, log)
    ensures Inv(After(s, log)) && Tearing(After(s, log))
  {
    if log != [] {
      var init, last := log[..|log| - 1], log[|log| - 1];
      TearingRun(s, init);
      InvStep(After(s, init), last);
      TearingStep(After(s, init), last);
    }
  }

  // ---- One instance only ------------------------------------------------------------------

  /** The reconcile in flight is on its way to a create request. */
  predicate MayCreate(p: Proc) {
    p.Busy? && (p.pc.ReadyToCreate? || (p.pc.Begin? && p.cur.pid == ""))
  }

  /** No create request is under way, and no later reconcile will make one. */
  predicate CannotCreate(s: State) {
    (s.obj.None? || s.obj.value.deleting || s.obj.value.pid != "") && !MayCreate(s.proc)
  }

  lemma CannotCreateStep(s: State, e: Event)
    requires Inv(s) && Legal(s, e) && CannotCreate(s)
    ensures CannotCreate(Apply(s, e))
  {
  }

  /** Others take the instance away while another one could be created in its place, or make a
      second one themselves. */
  predicate Meddles(s: State, e: Event) {
    (e.OobInstanceGone? && !CannotCreate(s)) || (e.OobInstance? && s.ids != {})
  }

  /** One instance id at most, and no instance, or a destroyed one, only before the first and
      when no create request can follow. */
  predicate SoleInv(s: State) {
    && Inv(s)
    && (forall x, y :: x in s.ids && y in s.ids ==> x == y)
    && (s.ids != {} && (s.inst.None? || s.inst.value.run.Destroyed?) ==> CannotCreate(s))
  }

  lemma SoleEnvironment(s: State, e: Event)
    requires SoleInv(s) && Legal(s, e) && IsEnvironment(e) && !Meddles(s, e) && Inv(Apply(s, e))
    requires CannotCreate(s) ==> CannotCreate(Apply(s, e))
    ensures SoleInv(Apply(s, e))
  {
  }

  lemma SoleReconcile(s: State, e: Event)
    requires SoleInv(s) && Legal(s, e) && !IsEnvironment(e) && Inv(Apply(s, e))
    requires CannotCreate(s) ==> CannotCreate(Apply(s, e))
    ensures SoleInv(Apply(s, e))
  {
  }

  lemma SoleStep(s: State, e: Event)
    requires SoleInv(s) && Legal(s, e) && !Meddles(s, e)
    ensures SoleInv(Apply(s, e))
  {
    InvStep(s, e);
    if CannotCreate(s) {
      CannotCreateStep(s, e);
    }
    if IsEnvironment(e) {
      SoleEnvironment(s, e);
    } else {
      SoleReconcile(s, e);
    }
  }

  // ---- What a reconcile that drops the finalizer has seen ---------------------------------

  /** The reconcile in flight has the finalizer off its copy. */
  predicate Dropped(p: Proc) {
    p.Busy? && p.orig.fin && !p.cur.fin
  }

  /** Others make an instance or a disk when a deletion has already seen that there is none. */
  predicate Intrudes(s: State, e: Event) {
    (e.OobInstance? && DroppingFinalizer(s.proc)) || (e.OobDisk? && Dropped(s.proc))
  }

  predicate ClearInv(s: State) {
    && Inv(s)
    && (DroppingFinalizer(s.proc) ==> s.inst.None?)
    && (Dropped(s.proc) ==> s.disk.None?)
  }

  lemma ClearEnvironment(s: State, e: Event)
    requires ClearInv(s) && Legal(s, e) && IsEnvironment(e) && !Intrudes(s, e) && Inv(Apply(s, e))
    ensures ClearInv(Apply(s, e))
  {
  }

  lemma ClearReconcile(s: State, e: Event)
    requires ClearInv(s) && Legal(s, e) && !IsEnvironment(e) && Inv(Apply(s, e))
    ensures ClearInv(Apply(s, e))
  {
  }

  lemma ClearStep(s: State, e: Event)
    requires ClearInv(s) && Legal(s, e) && !Intrudes(s, e)
    ensures ClearInv(Apply(s, e))
  {
    InvStep(s, e);
    if IsEnvironment(e) {
      ClearEnvironment(s, e);
    } else {
      ClearReconcile(s, e);
    }
  }
}
