/** What whole runs of one cluster guarantee: a stable endpoint, a clean teardown, calls in
    order, and a floating IP that is attached whenever it can be. */
module ClusterRuns {
  import opened Basics
  import opened Cloud
  import opened Attachment
  import opened ClusterModel

  // ---- What every step keeps --------------------------------------------------------------

  predicate OnDeletionPath(p: Proc) {
    p.Busy? && p.pc.DeletingIp?
  }

  predicate OnNormalPath(p: Proc) {
    p.Busy? && !p.pc.DeletingIp? && !p.pc.End?
  }

  predicate PcOk(orig: Obj, cur: Obj, pc: Pc) {
    match pc
    case LookingUpIp => cur == orig.(fin := true)
    case CreatingIp => cur == orig.(fin := true)
    case Listing(ip) => cur.host == ip.addr && cur.port != 0
    case Detaching(ip, _) => cur.port != 0 && ip.holder != ""
    case Attaching(_, t) => cur.port != 0 && t != ""
    case _ => true
  }

  /** Only the deletion mark of the copy a reconcile works on can be stale. */
  predicate Inv(s: State) {
    && (s.obj.None? ==> s.asked)
    && (s.obj.Some? && s.obj.value.deleting ==> s.obj.value.fin && s.asked)
    && (s.proc.Busy? ==>
          var (orig, cur) := (s.proc.orig, s.proc.cur);
          && PcOk(orig, cur, s.proc.pc)
          && cur.deleting == orig.deleting
          && (OnNormalPath(s.proc) ==> !orig.deleting && cur.fin)
          && (OnDeletionPath(s.proc) ==> orig.deleting && cur == orig)
          && (orig.fin && !cur.fin ==> orig.deleting)
          && (orig.deleting ==> orig.fin)
          && (orig.port != 0 ==> cur.port == orig.port)
          && (orig.deleting ==> s.obj.None? || s.obj.value.deleting)
          && (s.obj.Some? ==> s.obj.value.(deleting := orig.deleting) == orig))
  }

  lemma EnvironmentKeeps(valid: UuidCheck, s: State, e: Event)
    requires Inv(s) && Legal(s, e) && IsEnvironment(e)
    ensures Inv(Apply(valid, s, e))
  {
  }

  lemma PatchKeeps(valid: UuidCheck, s: State, e: Event)
    requires Inv(s) && Legal(s, e) && e.Patch?
    ensures Inv(Apply(valid, s, e))
  {
  }

  lemma IpCallKeeps(valid: UuidCheck, s: State, e: Event)
    requires Inv(s) && Legal(s, e) && (e.IpView? || e.IpCreate? || e.IpDelete?)
    ensures Inv(Apply(valid, s, e))
  {
  }

  lemma ReconcileKeeps(valid: UuidCheck, s: State, e: Event)
    requires Inv(s) && Legal(s, e) && !IsEnvironment(e)
    requires !e.Patch? && !e.IpView? && !e.IpCreate? && !e.IpDelete?
    ensures Inv(Apply(valid, s, e))
  {
  }

  lemma InvStep(valid: UuidCheck, s: State, e: Event)
    requires Inv(s) && Legal(s, e)
    ensures Inv(Apply(valid, s, e))
  {
    if IsEnvironment(e) {
      EnvironmentKeeps(valid, s, e);
    } else if e.Patch? {
      PatchKeeps(valid, s, e);
    } else if e.IpView? || e.IpCreate? || e.IpDelete? {
      IpCallKeeps(valid, s, e);
    } else {
      ReconcileKeeps(valid, s, e);
    }
  }

  // ---- Endpoint ---------------------------------------------------------------------------

  predicate NoForeignIp(log: seq<Event>) {
    forall i :: 0 <= i < |log| ==> !log[i].OobIp?
  }

  /** The IP, when there is one, has the recorded address; so will the one in the making. */
  predicate EndpointInv(s: State) {
    && Inv(s)
    && (s.obj.Some? && s.obj.value.host != "" && s.fip.Some? ==> s.fip.value.addr == s.obj.value.host)
    && (s.proc.Busy? ==>
          var (orig, cur) := (s.proc.orig, s.proc.cur);
          && (orig.host != "" ==> cur.host == orig.host)
          && (cur.host != "" && s.fip.Some? ==> s.fip.value.addr == cur.host))
  }

  /** A host or port on record is still there afterwards. */
  predicate EndpointKept(before: Option<Obj>, after: Option<Obj>) {
    after.Some? ==>
      && before.Some?
      && (before.value.host != "" ==> after.value.host == before.value.host)
      && (before.value.port != 0 ==> after.value.port == before.value.port)
  }

  lemma EndpointPatch(valid: UuidCheck, s: State, e: Event)
    requires EndpointInv(s) && Legal(s, e) && e.Patch? && Inv(Apply(valid, s, e))
    ensures EndpointInv(Apply(valid, s, e)) && EndpointKept(s.obj, Apply(valid, s, e).obj)
  {
  }

  lemma EndpointEnvironment(valid: UuidCheck, s: State, e: Event)
    requires EndpointInv(s) && Legal(s, e) && IsEnvironment(e) && !e.OobIp? && Inv(Apply(valid, s, e))
    ensures EndpointInv(Apply(valid, s, e)) && EndpointKept(s.obj, Apply(valid, s, e).obj)
  {
  }

  lemma EndpointFound(valid: UuidCheck, s: State, e: Event)
    requires EndpointInv(s) && Legal(s, e) && (e.IpView? || e.IpCreate?) && Inv(Apply(valid, s, e))
    ensures EndpointInv(Apply(valid, s, e)) && EndpointKept(s.obj, Apply(valid, s, e).obj)
  {
  }

  lemma EndpointCall(valid: UuidCheck, s: State, e: Event)
    requires EndpointInv(s) && Legal(s, e) && !IsEnvironment(e) && Inv(Apply(valid, s, e))
    requires !e.Patch? && !e.IpView? && !e.IpCreate?
    ensures EndpointInv(Apply(valid, s, e)) && EndpointKept(s.obj, Apply(valid, s, e).obj)
  {
  }

  /** Others make an IP of this name with another address than the one on record, or than the
      one the reconcile in flight is about to record. */
  predicate Displaces(s: State, e: Event) {
    e.OobIp? &&
    ((s.obj.Some? && s.obj.value.host != "" && e.addr != s.obj.value.host)
     || (s.proc.Busy? && s.proc.cur.host != "" && e.addr != s.proc.cur.host))
  }

  lemma EndpointMade(valid: UuidCheck, s: State, e: Event)
    requires EndpointInv(s) && Legal(s, e) && e.OobIp? && !Displaces(s, e) && Inv(Apply(valid, s, e))
    ensures EndpointInv(Apply(valid, s, e)) && EndpointKept(s.obj, Apply(valid, s, e).obj)
  {
  }

  lemma EndpointStep(valid: UuidCheck, s: State, e: Event)
    requires EndpointInv(s) && Legal(s, e) && !Displaces(s, e)
    ensures EndpointInv(Apply(valid, s, e)) && EndpointKept(s.obj, Apply(valid, s, e).obj)
  {
    InvStep(valid, s, e);
    if e.Patch? {
      EndpointPatch(valid, s, e);
    } else if e.OobIp? {
      EndpointMade(valid, s, e);
    } else if IsEnvironment(e) {
      EndpointEnvironment(valid, s, e);
    } else if e.IpView? || e.IpCreate? {
      EndpointFound(valid, s, e);
    } else {
      EndpointCall(valid, s, e);
    }
  }

  predicate NeverDisplaced(valid: UuidCheck, s: State, log: seq<Event>)
    requires LegalRun(valid, s, log)
  {
    log == [] ||
    var init := log[..|log| - 1];
    NeverDisplaced(valid, s, init) && !Displaces(After(valid, s, init), log[|log| - 1])
  }

  lemma {:induction false} EndpointRun(valid: UuidCheck, s: State, log: seq<Event>)
    requires EndpointInv(s) && LegalRun(valid, s, log) && NeverDisplaced(valid, s, log)
    ensures EndpointInv(After(valid, s, log)) && EndpointKept(s.obj, After(valid, s, log).obj)
  {
    if log != [] {
      var init, last := log[..|log| - 1], log[|log| - 1];
      EndpointRun(valid, s, init);
      EndpointStep(valid, After(valid, s, init), last);
    }
  }

  /** The host asked for, if any, is the address of the IP, if there is one. */
  predicate HostAgrees(s: State) {
    s.obj.Some? && s.obj.value.host != "" && s.fip.Some? ==> s.fip.value.addr == s.obj.value.host
  }

  /** Between any two moments of a run, through crashes, lost patches, and the IP disappearing
      and being created anew: a host or a port on record does not change, if the IP that was
      there at the start has the address the user asked for and others never displace it. */
  lemma EndpointIsStable(valid: UuidCheck, s: State, log: seq<Event>, more: seq<Event>)
    requires Init(s) && HostAgrees(s) && LegalRun(valid, s, log) && NeverDisplaced(valid, s, log)
    requires LegalRun(valid, After(valid, s, log), more) && NeverDisplaced(valid, After(valid, s, log), more)
    ensures var (t, u) := (After(valid, s, log), After(valid, After(valid, s, log), more));
            EndpointKept(t.obj, u.obj) && HostAgrees(u)
  {
    EndpointRun(valid, s, log);
    EndpointRun(valid, After(valid, s, log), more);
  }

  // ---- Teardown ---------------------------------------------------------------------------

  /** What the finalizer protects: no IP is left behind. */
  predicate TeardownInv(s: State) {
    && Inv(s)
    && (s.proc.Busy? && s.proc.orig.fin && !s.proc.cur.fin ==> s.fip.None?)
  }

  /** Others make an IP of this name when a deletion has already seen that it is gone. */
  predicate Intrudes(s: State, e: Event) {
    e.OobIp? && s.proc.Busy? && s.proc.orig.fin && !s.proc.cur.fin
  }

  lemma TeardownStep(valid: UuidCheck, s: State, e: Event)
    requires TeardownInv(s) && Legal(s, e) && !Intrudes(s, e)
    ensures TeardownInv(Apply(valid, s, e))
  {
    InvStep(valid, s, e);
  }

  predicate NeverIntruded(valid: UuidCheck, s: State, log: seq<Event>)
    requires LegalRun(valid, s, log)
  {
    log == [] ||
    var init := log[..|log| - 1];
    NeverIntruded(valid, s, init) && !Intrudes(After(valid, s, init), log[|log| - 1])
  }

  lemma {:induction false} TeardownRun(valid: UuidCheck, s: State, log: seq<Event>)
    requires TeardownInv(s) && LegalRun(valid, s, log) && NeverIntruded(valid, s, log)
    ensures TeardownInv(After(valid, s, log))
  {
    if log != [] {
      TeardownRun(valid, s, log[..|log| - 1]);
      TeardownStep(valid, After(valid, s, log[..|log| - 1]), log[|log| - 1]);
    }
  }

  /** The finalizer goes, and the object with it, only when there is no IP of this name, unless
      others make one after the deletion saw that it was gone. Only the last reconcile matters:
      `log` may start at any moment at which none is in flight. */
  lemma FinalizerDropIsSafe(valid: UuidCheck, s: State, before: seq<Event>, log: seq<Event>, e: Event)
    requires Init(s) && LegalRun(valid, s, before) && After(valid, s, before).proc.Idle?
    requires var b := After(valid, s, before);
             LegalRun(valid, b, log) && NeverIntruded(valid, b, log) && Legal(After(valid, b, log), e)
    requires var t := After(valid, After(valid, s, before), log); t.obj.Some? && t.obj.value.fin
    requires var u := Apply(valid, After(valid, After(valid, s, before), log), e); u.obj.None? || !u.obj.value.fin
    ensures var u := Apply(valid, After(valid, After(valid, s, before), log), e);
            u.obj.None? && u.fip.None? && u.proc.Idle?
  {
    InvRun(valid, s, before);
    TeardownRun(valid, After(valid, s, before), log);
  }

  ghost predicate NeverLeaks(valid: UuidCheck, s: State) {
    forall more :: LegalRun(valid, s, more) && NoForeignIp(more) ==>
      var t := After(valid, s, more); t.obj.None? ==> t.fip.None?
  }

  predicate MayCreate(p: Proc) {
    p.Busy? && (p.pc.LookingUpIp? || p.pc.CreatingIp?)
  }

  predicate SafeToDelete(s: State)
    requires s.obj.Some?
  {
    s.obj.value.fin || (s.fip.None? && !MayCreate(s.proc))
  }

  /** As for machines, the finalizer reaches the API server only after the IP was created:
      deleting a cluster never leaves its IP behind exactly when the finalizer is on record, or
      there is no IP and no reconcile about to create one. */
  lemma DeletionIsCleanIff(valid: UuidCheck, s: State, log: seq<Event>)
    requires Init(s) && LegalRun(valid, s, log)
    requires var t := After(valid, s, log); t.obj.Some? && !t.obj.value.deleting
    ensures var t := After(valid, s, log); NeverLeaks(valid, Apply(valid, t, UserDelete)) <==> SafeToDelete(t)
  {
    InvRun(valid, s, log);
    var t := After(valid, s, log);
    assert TeardownInv(t);
    var u := Apply(valid, t, UserDelete);
    TeardownStep(valid, t, UserDelete);
    if SafeToDelete(t) {
      forall more | LegalRun(valid, u, more) && NoForeignIp(more)
        ensures var w := After(valid, u, more); w.obj.None? ==> w.fip.None?
      {
        DeletedRun(valid, u, more);
      }
    } else {
      var more := LeakingRun(valid, t);
      assert After(valid, u, more).obj.None?;
    }
  }

  lemma {:induction false} DeletedRun(valid: UuidCheck, s: State, log: seq<Event>)
    requires TeardownInv(s) && LegalRun(valid, s, log) && NoForeignIp(log)
    requires if s.obj.Some? then s.obj.value.deleting else s.fip.None? && !MayCreate(s.proc)
    ensures var t := After(valid, s, log);
            TeardownInv(t) && if t.obj.Some? then t.obj.value.deleting else t.fip.None? && !MayCreate(t.proc)
  {
    if log != [] {
      var init, last := log[..|log| - 1], log[|log| - 1];
      DeletedRun(valid, s, init);
      TeardownStep(valid, After(valid, s, init), last);
    }
  }

  lemma LeakingRun(valid: UuidCheck, s: State) returns (more: seq<Event>)
    requires TeardownInv(s) && s.obj.Some? && !s.obj.value.deleting && !SafeToDelete(s)
    ensures var u := Apply(valid, s, UserDelete);
            && LegalRun(valid, u, more) && NoForeignIp(more)
            && var t := After(valid, u, more); t.obj.None? && t.fip.Some?
  {
    var u := Apply(valid, s, UserDelete);
    more := [];
    if s.fip.None? {
      if u.proc.pc.LookingUpIp? {
        more := FindsNoIp(valid, u);
      }
      var create := CreationFor(valid, After(valid, u, more));
      Snoc(valid, u, more, create);
      more := more + [create];
    }
  }

  lemma FindsNoIp(valid: UuidCheck, s: State) returns (log: seq<Event>)
    requires At(s, LookingUpIp) && s.fip.None?
    ensures LegalRun(valid, s, log) && NoForeignIp(log)
    ensures After(valid, s, log) == s.(proc := Busy(s.proc.orig, s.proc.cur, CreatingIp))
  {
    OneStep(valid, s, IpView(true));
    log := [IpView(true)];
  }

  lemma CreationFor(valid: UuidCheck, s: State) returns (e: Event)
    requires At(s, CreatingIp) && s.fip.None?
    ensures e.IpCreate? && Legal(s, e) && Apply(valid, s, e).fip.Some? && Apply(valid, s, e).obj == s.obj
  {
    var host := s.proc.cur.host;
    e := IpCreate(Served, if host != "" then host else "a",
                  if s.pool != "" then Pool(s.pool) else DefaultPool(s.ipType));
  }

  // ---- Order of calls ---------------------------------------------------------------------

  /** Position of a call in a reconcile. */
  function Stage(e: Event): nat {
    match e
    case Enter(_, _) => 1
    case IpDelete(_) => 2
    case IpView(_) => 2
    case IpCreate(_, _, _) => 3
    case ListMachines(_) => 4
    case IpDetach(_) => 5
    case IpAttach(_) => 6
    case Patch(_, _) => 7
    case _ => 0
  }

  /** No call below this stage can follow at this point of a reconcile. */
  function NextStage(p: Proc): nat {
    if p.Idle? then 0
    else
      match p.pc
      case DeletingIp => 2
      case LookingUpIp => 2
      case CreatingIp => 3
      case Listing(_) => 4
      case Detaching(_, _) => 5
      case Attaching(_, _) => 6
      case End(_) => 7
  }

  predicate SameReconcile(log: seq<Event>, i: nat, j: nat)
    requires i <= j <= |log|
  {
    forall k :: i <= k < j ==> !log[k].Patch? && !log[k].Crash?
  }

  lemma StageRises(valid: UuidCheck, s: State, e: Event)
    requires Legal(s, e)
    ensures Stage(e) > 0 ==> NextStage(s.proc) <= Stage(e)
    ensures Stage(e) > 0 && !e.Patch? ==> Apply(valid, s, e).proc.Busy? && Stage(e) < NextStage(Apply(valid, s, e).proc)
    ensures Stage(e) == 0 && !e.Crash? ==> Apply(valid, s, e).proc == s.proc
    ensures s.proc.Busy? ==> !e.Enter?
  {
  }

  lemma {:induction false} Prefix(valid: UuidCheck, s: State, log: seq<Event>, n: nat)
    requires LegalRun(valid, s, log) && n < |log|
    ensures LegalRun(valid, s, log[..n]) && Legal(After(valid, s, log[..n]), log[n])
    ensures LegalRun(valid, s, log[..n + 1])
    ensures After(valid, s, log[..n + 1]) == Apply(valid, After(valid, s, log[..n]), log[n])
  {
    var init := log[..|log| - 1];
    if n == |log| - 1 {
      assert log[..n + 1] == log;
    } else {
      Prefix(valid, s, init, n);
      assert init[..n] == log[..n] && init[..n + 1] == log[..n + 1];
    }
  }

  lemma {:induction false} StageReached(valid: UuidCheck, s: State, log: seq<Event>, i: nat, n: nat)
    requires LegalRun(valid, s, log) && i < n < |log| && SameReconcile(log, i, n) && Stage(log[i]) > 0
    ensures LegalRun(valid, s, log[..n])
    ensures After(valid, s, log[..n]).proc.Busy? && Stage(log[i]) < NextStage(After(valid, s, log[..n]).proc)
  {
    Prefix(valid, s, log, n - 1);
    var before := After(valid, s, log[..n - 1]);
    StageRises(valid, before, log[n - 1]);
    if i < n - 1 {
      StageReached(valid, s, log, i, n - 1);
    }
  }

  /** Within a reconcile every call comes after the calls of earlier stages, and none comes
      twice: at most one detach, then at most one attach, both after the one list request. */
  lemma CallsInOrder(valid: UuidCheck, s: State, log: seq<Event>, i: nat, j: nat)
    requires LegalRun(valid, s, log) && i < j < |log| && SameReconcile(log, i, j)
    requires Stage(log[i]) > 0 && Stage(log[j]) > 0
    ensures Stage(log[i]) < Stage(log[j])
  {
    StageReached(valid, s, log, i, j);
    Prefix(valid, s, log, j);
    StageRises(valid, After(valid, s, log[..j]), log[j]);
  }

  // ---- Status, creation, and reconciles without calls -------------------------------------

  /** The copy takes back nothing of what the object says about the IP being there. */
  predicate StatusKept(s: State) {
    s.proc.Busy? ==>
      var (orig, cur) := (s.proc.orig, s.proc.cur);
      && (orig.provisioned == Some(true) ==> cur.provisioned == Some(true))
      && (orig.ready == True(FloatingIPProvisioned) ==> cur.ready == True(FloatingIPProvisioned))
  }

  predicate StatusEvolves(before: Obj, after: Obj) {
    && (before.provisioned == Some(true) ==> after.provisioned == Some(true))
    && (before.ready == True(FloatingIPProvisioned) ==> after.ready == True(FloatingIPProvisioned))
  }

  lemma StatusStep(valid: UuidCheck, s: State, e: Event)
    requires Inv(s) && StatusKept(s) && Legal(s, e)
    ensures var t := Apply(valid, s, e);
            StatusKept(t) && (t.obj.Some? ==> s.obj.Some? && StatusEvolves(s.obj.value, t.obj.value))
  {
  }

  /** Between any two moments of any run, whoever moves the IP: a cluster on record as provisioned
      stays so, and one ready stays ready. */
  lemma {:induction false} ProvisionedStays(valid: UuidCheck, s: State, log: seq<Event>, more: seq<Event>)
    requires Init(s) && LegalRun(valid, s, log) && LegalRun(valid, After(valid, s, log), more)
    ensures Inv(After(valid, s, log)) && StatusKept(After(valid, s, log))
    ensures var (t, u) := (After(valid, s, log), After(valid, After(valid, s, log), more));
            && Inv(u) && StatusKept(u)
            && (u.obj.Some? ==> t.obj.Some? && StatusEvolves(t.obj.value, u.obj.value))
    decreases |log| + |more|
  {
    var t := After(valid, s, log);
    if more != [] {
      var init, last := more[..|more| - 1], more[|more| - 1];
      ProvisionedStays(valid, s, log, init);
      InvStep(valid, After(valid, t, init), last);
      StatusStep(valid, After(valid, t, init), last);
    } else if log != [] {
      var init, last := log[..|log| - 1], log[|log| - 1];
      ProvisionedStays(valid, s, init, []);
      InvStep(valid, After(valid, s, init), last);
      StatusStep(valid, After(valid, s, init), last);
    }
  }

  /** A new IP has the recorded host for its address; without one it comes from the pool of the
      spec, and without that from a default pool, of the IP type of the spec if it has one. */
  predicate Proper(host: string, pool: string, ipType: string, ip: Fip) {
    && ip.addr != ""
    && (host != "" ==> ip.addr == host)
    && (host == "" && pool != "" ==> ip.source == Pool(pool))
    && (host == "" && pool == "" ==>
          ip.source.DefaultPool? && (ipType != "" ==> ip.source == DefaultPool(ipType)))
  }

  lemma {:induction false} WishesStay(valid: UuidCheck, s: State, log: seq<Event>)
    requires LegalRun(valid, s, log)
    ensures After(valid, s, log).pool == s.pool && After(valid, s, log).ipType == s.ipType
  {
    if log != [] {
      WishesStay(valid, s, log[..|log| - 1]);
    }
  }

  /** In any run, an IP the controller creates is the one the host on record and the spec ask
      for. */
  lemma CreatedIpIsProper(valid: UuidCheck, s: State, log: seq<Event>, e: Event)
    requires Init(s) && LegalRun(valid, s, log) && Legal(After(valid, s, log), e) && e.IpCreate?
    requires After(valid, s, log).fip.None? && Apply(valid, After(valid, s, log), e).fip.Some?
    ensures var (t, u) := (After(valid, s, log), Apply(valid, After(valid, s, log), e));
            && t.proc.Busy? && Proper(t.proc.orig.host, s.pool, s.ipType, u.fip.value) && u.fip.value.holder == ""
            && (t.obj.Some? ==> t.obj.value.host == t.proc.orig.host)
  {
    InvRun(valid, s, log);
    WishesStay(valid, s, log);
  }

  /** A call that is not answered ends the reconcile with an error, and so does a request the
      cloud refuses; what the reconcile knows so far is kept. */
  lemma FailedCallEndsReconcile(valid: UuidCheck, s: State, e: Event)
    requires Legal(s, e) && !IsEnvironment(e) && !e.Enter? && !e.Patch? && !e.Crash?
    requires || !Answered(e)
             || (e.IpDelete? && HolderOf(s) != "") || (e.IpCreate? && s.fip.Some?)
             || (e.IpDetach? && HolderOf(s) == "") || (e.IpAttach? && (s.fip.None? || HolderOf(s) != ""))
    ensures Apply(valid, s, e).proc == Busy(s.proc.orig, s.proc.cur, End(Errored))
  {
  }

  /** Once a reconcile has come to its end, nothing of it follows but the patch. */
  lemma {:induction false} EndMakesNoCall(valid: UuidCheck, s: State, log: seq<Event>)
    requires s.proc.Busy? && s.proc.pc.End? && LegalRun(valid, s, log) && SameReconcile(log, 0, |log|)
    ensures After(valid, s, log).proc == s.proc
    ensures forall i :: 0 <= i < |log| ==> IsEnvironment(log[i])
  {
    if log != [] {
      var init := log[..|log| - 1];
      assert forall i :: 0 <= i < |init| ==> init[i] == log[i];
      EndMakesNoCall(valid, s, init);
    }
  }

  /** While the owner of a live cluster is being deleted, or without a client, a reconcile makes
      no call and changes nothing. */
  lemma HeldBackReconcile(valid: UuidCheck, s: State, clientBuilt: bool, ownerDeleting: bool, log: seq<Event>)
    requires s.proc.Idle? && s.obj.Some? && (!clientBuilt || (ownerDeleting && !s.obj.value.deleting))
    ensures Legal(s, Enter(clientBuilt, ownerDeleting))
    ensures var t := Apply(valid, s, Enter(clientBuilt, ownerDeleting));
            LegalRun(valid, t, log) && SameReconcile(log, 0, |log|) ==>
              && After(valid, t, log).proc ==
                 Busy(s.obj.value, s.obj.value, End(if clientBuilt then Finished else Errored))
              && forall i :: 0 <= i < |log| ==> IsEnvironment(log[i])
  {
    var t := Apply(valid, s, Enter(clientBuilt, ownerDeleting));
    if LegalRun(valid, t, log) && SameReconcile(log, 0, |log|) {
      EndMakesNoCall(valid, t, log);
    }
  }

  // ---- A reconcile during which nobody else moves the IP ----------------------------------

  predicate MovedByOthers(e: Event) {
    e.OobAttach? || e.OobDetach? || e.OobIpGone? || e.OobIp?
  }

  /** Steps of a reconcile between its start and its patch, and of users in between. */
  predicate WithinReconcile(log: seq<Event>) {
    forall i :: 0 <= i < |log| ==> !log[i].Enter? && !log[i].Patch? && !log[i].Crash? && !MovedByOthers(log[i])
  }

  /** The service was reached and answered. */
  predicate Answered(e: Event) {
    match e
    case IpDelete(d) => d.Served?
    case IpView(up) => up
    case IpCreate(d, _, _) => d.Served?
    case ListMachines(ms) => ms.Some?
    case IpDetach(d) => d.Served?
    case IpAttach(d) => d.Served?
    case _ => true
  }

  predicate AllAnswered(log: seq<Event>) {
    forall i :: 0 <= i < |log| ==> Answered(log[i])
  }

  /** What the list request, if there was one, showed. */
  function Listed(log: seq<Event>): Option<seq<MachineView>> {
    if log == [] then None else ListedAfter(Listed(log[..|log| - 1]), log[|log| - 1])
  }

  function ListedAfter(before: Option<seq<MachineView>>, e: Event): Option<seq<MachineView>> {
    if e.ListMachines? && e.ms.Some? then e.ms else before
  }

  function HolderOf(s: State): string {
    if s.fip.None? then "" else s.fip.value.holder
  }

  predicate StartsReconcile(s: State) {
    s.proc.Idle? && s.obj.Some? && !s.obj.value.deleting
  }

  /** The state right after the reconcile started. */
  function Started(s: State): State
    requires StartsReconcile(s)
  {
    s.(proc := Busy(s.obj.value, s.obj.value.(fin := true), LookingUpIp))
  }

  /** The IP a reconcile that starts in `s` ends up with, but for its holder. */
  predicate IpFits(s: State, ip: Fip)
    requires StartsReconcile(s)
  {
    if s.fip.Some? then ip == s.fip.value.(holder := ip.holder)
    else Proper(s.obj.value.host, s.pool, s.ipType, ip)
  }

  /** The object with everything the IP has to be recorded by: the cluster's endpoint, that the
      cluster is provisioned and ready, and the finalizer. */
  function Provisioned(o: Obj, ip: Fip): Obj {
    var port := if o.port == 0 then 6443 else o.port;
    Obj(true, o.deleting, ip.addr, port, Some(true), True(FloatingIPProvisioned), o.attached)
  }

  /** Whether the condition says where the IP is. */
  predicate TellsHolder(c: Condition, holder: string) {
    c == if holder == "" then False(WaitingForControlPlaneMachine) else True(FloatingIPAttached)
  }

  /** `ip` is the floating IP, on this holder, and the copy has it as its endpoint. */
  predicate HasIp(s: State, t: State, ip: Fip, holder: string)
    requires StartsReconcile(s) && t.proc.Busy?
  {
    && t.fip == Some(ip) && ip.holder == holder && IpFits(s, ip)
    && t.proc.cur == Provisioned(s.obj.value, ip)
  }

  /** The reconcile ended with the IP where the decision wants it, and says so. */
  predicate PlacedIp(valid: UuidCheck, s: State, t: State, listed: Option<seq<MachineView>>)
    requires StartsReconcile(s) && t.proc.Busy?
  {
    && listed.Some? && t.fip.Some?
    && var (choice, ip) := (Decide(valid, listed.value, HolderOf(s)), t.fip.value);
    && choice != BadProviderId
    && ip.holder == FinalHolder(choice, HolderOf(s)) && IpFits(s, ip)
    && t.proc.cur == Provisioned(s.obj.value, ip).(attached := t.proc.cur.attached)
    && TellsHolder(t.proc.cur.attached, ip.holder)
  }

  /** Where a reconcile that started in `s` is by `t`. */
  predicate Progress(valid: UuidCheck, s: State, t: State, listed: Option<seq<MachineView>>, answered: bool)
    requires StartsReconcile(s)
  {
    && t.proc.Busy? && t.proc.orig == s.obj.value && t.pool == s.pool && t.ipType == s.ipType
    && match t.proc.pc
       case LookingUpIp => t.fip == s.fip && t.proc.cur == s.obj.value.(fin := true)
       case CreatingIp => t.fip.None? && s.fip.None? && t.proc.cur == s.obj.value.(fin := true)
       case Listing(ip) => HasIp(s, t, ip, HolderOf(s))
       case Detaching(ip, target) =>
         && HasIp(s, t, ip, HolderOf(s)) && ip.holder != ""
         && listed.Some? && Decide(valid, listed.value, HolderOf(s)) == Move(target)
       case Attaching(ip, target) =>
         && HasIp(s, t, ip, "") && target != ""
         && listed.Some? && Decide(valid, listed.value, HolderOf(s)) == Move(target)
       case End(Finished) => PlacedIp(valid, s, t, listed)
       case End(Errored) =>
         answered ==> listed.Some? && Decide(valid, listed.value, HolderOf(s)) == BadProviderId &&
                       HolderOf(t) == HolderOf(s)
       case _ => false
  }

  lemma ProgressAtUserDelete(valid: UuidCheck, s: State, t: State, e: Event,
                             listed: Option<seq<MachineView>>, answered: bool)
    requires StartsReconcile(s) && Progress(valid, s, t, listed, answered) && Legal(t, e) && e.UserDelete?
    ensures Progress(valid, s, Apply(valid, t, e), ListedAfter(listed, e), answered && Answered(e))
  {
  }

  lemma ProgressAtIp(valid: UuidCheck, s: State, t: State, e: Event, listed: Option<seq<MachineView>>, answered: bool)
    requires StartsReconcile(s) && Progress(valid, s, t, listed, answered) && Legal(t, e) && (e.IpView? || e.IpCreate?)
    ensures Progress(valid, s, Apply(valid, t, e), ListedAfter(listed, e), answered && Answered(e))
  {
  }

  lemma ProgressAtList(valid: UuidCheck, s: State, t: State, e: Event, listed: Option<seq<MachineView>>, answered: bool)
    requires StartsReconcile(s) && Progress(valid, s, t, listed, answered) && Legal(t, e) && e.ListMachines?
    ensures Progress(valid, s, Apply(valid, t, e), ListedAfter(listed, e), answered && Answered(e))
  {
  }

  lemma ProgressAtDetach(valid: UuidCheck, s: State, t: State, e: Event,
                         listed: Option<seq<MachineView>>, answered: bool)
    requires StartsReconcile(s) && Progress(valid, s, t, listed, answered) && Legal(t, e) && e.IpDetach?
    ensures Progress(valid, s, Apply(valid, t, e), ListedAfter(listed, e), answered && Answered(e))
  {
  }

  lemma ProgressAtAttach(valid: UuidCheck, s: State, t: State, e: Event,
                         listed: Option<seq<MachineView>>, answered: bool)
    requires StartsReconcile(s) && Progress(valid, s, t, listed, answered) && Legal(t, e) && e.IpAttach?
    ensures Progress(valid, s, Apply(valid, t, e), ListedAfter(listed, e), answered && Answered(e))
  {
  }

  lemma ProgressStep(valid: UuidCheck, s: State, t: State, e: Event, listed: Option<seq<MachineView>>, answered: bool)
    requires StartsReconcile(s) && Progress(valid, s, t, listed, answered) && Legal(t, e)
    requires !e.Enter? && !e.Patch? && !e.Crash? && !MovedByOthers(e)
    ensures Progress(valid, s, Apply(valid, t, e), ListedAfter(listed, e), answered && Answered(e))
  {
    match e
    case UserDelete => ProgressAtUserDelete(valid, s, t, e, listed, answered);
    case ListMachines(_) => ProgressAtList(valid, s, t, e, listed, answered);
    case IpDetach(_) => ProgressAtDetach(valid, s, t, e, listed, answered);
    case IpAttach(_) => ProgressAtAttach(valid, s, t, e, listed, answered);
    case IpDelete(_) => assert false;
    case _ => ProgressAtIp(valid, s, t, e, listed, answered);
  }

  lemma {:induction false} ProgressRun(valid: UuidCheck, s: State, log: seq<Event>)
    requires StartsReconcile(s) && LegalRun(valid, Started(s), log) && WithinReconcile(log)
    ensures Progress(valid, s, After(valid, Started(s), log), Listed(log), AllAnswered(log))
  {
    if log != [] {
      var init, last := log[..|log| - 1], log[|log| - 1];
      ProgressRun(valid, s, init);
      ProgressStep(valid, s, After(valid, Started(s), init), last, Listed(init), AllAnswered(init));
      assert AllAnswered(log) <==> AllAnswered(init) && Answered(last) by {
        assert log == init + [last];
      }
    }
  }

  /** However a reconcile is interleaved with users, and whichever of its calls fail: if nobody
      else moves the IP meanwhile and it ends without an error, the IP is on the holder the
      decision asks for, newly created if it has to be, and the copy to be patched has the
      endpoint and the condition to match. If all its calls are answered, it can end with an
      error only because of an unreadable provider ID, and then leaves the IP alone. */
  lemma ReconcilePlacesIp(valid: UuidCheck, s: State, log: seq<Event>)
    requires StartsReconcile(s) && LegalRun(valid, Started(s), log) && WithinReconcile(log)
    ensures Legal(s, Enter(true, false)) && Started(s) == Apply(valid, s, Enter(true, false))
    ensures var t := After(valid, Started(s), log);
            && t.proc.Busy? && t.proc.orig == s.obj.value
            && (t.proc.pc == End(Finished) ==> PlacedIp(valid, s, t, Listed(log)))
            && (t.proc.pc.End? && t.proc.pc.verdict != Finished && AllAnswered(log) ==>
                  && Listed(log).Some? && Decide(valid, Listed(log).value, HolderOf(s)) == BadProviderId
                  && HolderOf(t) == HolderOf(s))
  {
    ProgressRun(valid, s, log);
  }

  /** What the patch makes of it, either half of which may get lost. If the status half lands,
      the recorded condition is true exactly when the IP is attached. */
  lemma ReconcileRecordsIp(valid: UuidCheck, s: State, log: seq<Event>, specOk: bool, statusOk: bool)
    requires Inv(s) && StartsReconcile(s) && LegalRun(valid, Started(s), log) && WithinReconcile(log)
    requires At(After(valid, Started(s), log), End(Finished))
    ensures var t := After(valid, Started(s), log);
            && Legal(t, Patch(specOk, statusOk))
            && var u := Apply(valid, t, Patch(specOk, statusOk));
            && u.fip == t.fip && u.fip.Some? && u.proc.Idle?
            && (u.obj.Some? ==> Records(u.obj.value, if specOk then t.proc.cur else s.obj.value,
                                     if statusOk then t.proc.cur else s.obj.value))
            && (u.obj.Some? && specOk ==>
                  var (o, ip, before) := (u.obj.value, u.fip.value, s.obj.value.port);
                  o.fin && o.host == ip.addr && o.port == if before == 0 then 6443 else before)
            && (u.obj.Some? && statusOk ==>
                  var o := u.obj.value;
                  && o.provisioned == Some(true) && o.ready == True(FloatingIPProvisioned)
                  && TellsHolder(o.attached, u.fip.value.holder))
  {
    ProgressRun(valid, s, log);
    StartedInv(valid, s);
    InvRun(valid, Started(s), log);
    PatchRecords(valid, After(valid, Started(s), log), specOk, statusOk);
  }

  /** The spec fields are those of `spec` and the status fields those of `status`. */
  predicate Records(o: Obj, spec: Obj, status: Obj) {
    && o.fin == spec.fin && o.host == spec.host && o.port == spec.port
    && o.provisioned == status.provisioned && o.ready == status.ready && o.attached == status.attached
  }

  lemma PatchRecords(valid: UuidCheck, t: State, specOk: bool, statusOk: bool)
    requires Inv(t) && t.proc.Busy? && t.proc.pc.End?
    ensures Legal(t, Patch(specOk, statusOk))
    ensures var (orig, cur, u) := (t.proc.orig, t.proc.cur, Apply(valid, t, Patch(specOk, statusOk)));
            && u.fip == t.fip && u.proc.Idle?
            && (u.obj.Some? ==> Records(u.obj.value, if specOk then cur else orig, if statusOk then cur else orig))
  {
  }

  lemma StartedInv(valid: UuidCheck, s: State)
    requires Inv(s) && StartsReconcile(s)
    ensures Inv(Started(s))
  {
  }

  lemma {:induction false} InvRun(valid: UuidCheck, s: State, log: seq<Event>)
    requires Inv(s) && LegalRun(valid, s, log)
    ensures Inv(After(valid, s, log))
  {
    if log != [] {
      InvRun(valid, s, log[..|log| - 1]);
      InvStep(valid, After(valid, s, log[..|log| - 1]), log[|log| - 1]);
    }
  }

  /** Availability: if a listed machine holds the IP, draining or not, the reconcile does not
      end with the IP unattached, unless one of its calls fails. */
  lemma ReconcileNeverAbandons(valid: UuidCheck, s: State, log: seq<Event>)
    requires SaneUuids(valid) && StartsReconcile(s) && LegalRun(valid, Started(s), log) && WithinReconcile(log)
    requires HolderOf(s) != "" && Listed(log).Some?
    requires exists k :: 0 <= k < |Listed(log).value| && Matches(valid, Listed(log).value[k], HolderOf(s))
    ensures var t := After(valid, Started(s), log);
            At(t, End(Finished)) || (t.proc.Busy? && t.proc.pc.End? && AllAnswered(log)) ==> HolderOf(t) != ""
  {
    ReconcilePlacesIp(valid, s, log);
    NeverAbandoned(valid, Listed(log).value, HolderOf(s));
  }

  /** Recovery: however the IP came to be unattached, or to be missing, the first reconcile
      that ends without an error and saw a candidate leaves it attached. */
  lemma ReconcileAttaches(valid: UuidCheck, s: State, log: seq<Event>)
    requires SaneUuids(valid) && StartsReconcile(s) && LegalRun(valid, Started(s), log) && WithinReconcile(log)
    requires At(After(valid, Started(s), log), End(Finished))
    requires Listed(log).Some? ==> HasCandidate(Listed(log).value)
    ensures var t := After(valid, Started(s), log);
            HolderOf(t) != "" && t.proc.cur.attached == True(FloatingIPAttached)
  {
    ReconcilePlacesIp(valid, s, log);
    CandidateMeansAttached(valid, Listed(log).value, HolderOf(s));
  }

  /** Every list request of the log shows `ms`. */
  predicate Shows(log: seq<Event>, ms: seq<MachineView>) {
    forall i :: 0 <= i < |log| && log[i].ListMachines? && log[i].ms.Some? ==> log[i].ms == Some(ms)
  }

  lemma {:induction false} ShownIsListed(log: seq<Event>, ms: seq<MachineView>)
    requires Shows(log, ms)
    ensures Listed(log).Some? ==> Listed(log) == Some(ms)
  {
    if log != [] {
      ShownIsListed(log[..|log| - 1], ms);
    }
  }

  /** Convergence: where a decision has put the IP, later reconciles that see the same machines
      leave it, without a detach or attach call, whatever fails and even if a provider ID is
      unreadable, unless the target is shadowed. */
  lemma PlacedIpStays(valid: UuidCheck, s: State, ms: seq<MachineView>, holder: string, log: seq<Event>)
    requires SaneUuids(valid) && !Shadowed(valid, ms)
    requires StartsReconcile(s) && HolderOf(s) == FinalHolder(Decide(valid, ms, holder), holder)
    requires LegalRun(valid, Started(s), log) && WithinReconcile(log) && Shows(log, ms)
    ensures forall i :: 0 <= i < |log| ==> !log[i].IpDetach? && !log[i].IpAttach?
    ensures HolderOf(After(valid, Started(s), log)) == HolderOf(s)
  {
    DecisionSettles(valid, ms, holder);
    QuietRun(valid, s, ms, log);
  }

  predicate Unmoving(p: Proc) {
    p.Busy? && !p.pc.Detaching? && !p.pc.Attaching? && !p.pc.DeletingIp?
  }

  /** A reconcile with nothing to do for the IP comes to no detach or attach call. */
  lemma QuietPoint(valid: UuidCheck, s: State, ms: seq<MachineView>, log: seq<Event>)
    requires StartsReconcile(s) && Passive(Decide(valid, ms, HolderOf(s)), HolderOf(s))
    requires LegalRun(valid, Started(s), log) && WithinReconcile(log) && Shows(log, ms)
    ensures Unmoving(After(valid, Started(s), log).proc)
  {
    ProgressRun(valid, s, log);
    ShownIsListed(log, ms);
    QuietProgress(valid, s, After(valid, Started(s), log), Listed(log), AllAnswered(log), ms);
  }

  lemma {:induction false} QuietRun(valid: UuidCheck, s: State, ms: seq<MachineView>, log: seq<Event>)
    requires StartsReconcile(s) && Passive(Decide(valid, ms, HolderOf(s)), HolderOf(s))
    requires LegalRun(valid, Started(s), log) && WithinReconcile(log) && Shows(log, ms)
    ensures forall i :: 0 <= i < |log| ==> !log[i].IpDetach? && !log[i].IpAttach?
    ensures HolderOf(After(valid, Started(s), log)) == HolderOf(s)
  {
    if log != [] {
      var init := log[..|log| - 1];
      assert forall i :: 0 <= i < |init| ==> init[i] == log[i];
      QuietRun(valid, s, ms, init);
      QuietPoint(valid, s, ms, init);
      UnmovingStep(valid, After(valid, Started(s), init), log[|log| - 1]);
    }
  }

  lemma UnmovingStep(valid: UuidCheck, s: State, e: Event)
    requires Unmoving(s.proc) && Legal(s, e) && !MovedByOthers(e)
    ensures !e.IpDetach? && !e.IpAttach? && HolderOf(Apply(valid, s, e)) == HolderOf(s)
  {
  }

  lemma QuietProgress(valid: UuidCheck, s: State, t: State, listed: Option<seq<MachineView>>,
                      answered: bool, ms: seq<MachineView>)
    requires StartsReconcile(s) && Progress(valid, s, t, listed, answered)
    requires listed.Some? ==> listed == Some(ms)
    requires Passive(Decide(valid, ms, HolderOf(s)), HolderOf(s))
    ensures Unmoving(t.proc)
  {
  }

  /** The recorded host follows the IP's address: a host the user asked for is overwritten when
      an IP of that name already exists with another address, and only then. */
  lemma AdoptionOverwritesHostIff(valid: UuidCheck, s: State, log: seq<Event>, statusOk: bool)
    requires Inv(s) && StartsReconcile(s) && LegalRun(valid, Started(s), log) && WithinReconcile(log)
    requires s.obj.value.host != "" && At(After(valid, Started(s), log), End(Finished))
    ensures var t := After(valid, Started(s), log);
            && Legal(t, Patch(true, statusOk))
            && var u := Apply(valid, t, Patch(true, statusOk));
            u.obj.Some? ==>
              (u.obj.value.host != s.obj.value.host <==> s.fip.Some? && s.fip.value.addr != s.obj.value.host)
  {
    ReconcileRecordsIp(valid, s, log, true, statusOk);
    ReconcilePlacesIp(valid, s, log);
  }

  // ---- A reconcile can always be completed ------------------------------------------------

  predicate OnCourse(s: State, offer: Fip) {
    && s.proc.Busy? && !s.proc.pc.DeletingIp?
    && (s.proc.pc.LookingUpIp? || s.proc.pc.CreatingIp? ==> Proper(s.proc.cur.host, s.pool, s.ipType, offer))
  }

  /** The next call, answered: a list shows `ms`, a new IP is what the cloud has to offer. */
  function NextCall(s: State, ms: seq<MachineView>, offer: Fip): (e: Event)
    requires OnCourse(s, offer) && !s.proc.pc.End?
    ensures Legal(s, e) && Answered(e) && !IsEnvironment(e)
  {
    match s.proc.pc
    case LookingUpIp => IpView(true)
    case CreatingIp => IpCreate(Served, offer.addr, offer.source)
    case Listing(_) => ListMachines(Some(ms))
    case Detaching(_, _) => IpDetach(Served)
    case Attaching(_, _) => IpAttach(Served)
  }

  /** Calls of one reconcile, all of them answered, that nothing interrupts. */
  predicate Undisturbed(log: seq<Event>, ms: seq<MachineView>) {
    && WithinReconcile(log) && AllAnswered(log) && Shows(log, ms)
    && forall i :: 0 <= i < |log| ==> !IsEnvironment(log[i])
  }

  lemma {:induction false} Completes(valid: UuidCheck, s: State, ms: seq<MachineView>, offer: Fip)
    returns (log: seq<Event>)
    requires OnCourse(s, offer)
    ensures LegalRun(valid, s, log) && Undisturbed(log, ms)
    ensures var t := After(valid, s, log); t.proc.Busy? && t.proc.pc.End? && t.obj == s.obj
    decreases 7 - NextStage(s.proc)
  {
    log := [];
    if !s.proc.pc.End? {
      var e := NextCall(s, ms, offer);
      StageRises(valid, s, e);
      OneStep(valid, s, e);
      var rest := Completes(valid, Apply(valid, s, e), ms, offer);
      Append(valid, s, [e], rest);
      log := [e] + rest;
    }
  }

  /** An undisturbed reconcile from its start to its patch. */
  predicate CleanPass(valid: UuidCheck, s: State, pass: seq<Event>, ms: seq<MachineView>)
    requires StartsReconcile(s)
  {
    && |pass| >= 2 && pass[0] == Enter(true, false) && pass[|pass| - 1] == Patch(true, true)
    && var log := pass[1..|pass| - 1];
    && LegalRun(valid, Started(s), log) && Undisturbed(log, ms) && Listed(log) == Some(ms)
    && At(After(valid, Started(s), log), End(Finished))
    && LegalRun(valid, s, pass)
    && After(valid, s, pass) == Apply(valid, After(valid, Started(s), log), Patch(true, true))
  }

  /** The IP on the declared holder, and the object to match. */
  function PassResult(valid: UuidCheck, s: State, ms: seq<MachineView>, offer: Fip): State
    requires StartsReconcile(s)
  {
    var holder := FinalHolder(Decide(valid, ms, HolderOf(s)), HolderOf(s));
    var ip := (if s.fip.Some? then s.fip.value else offer).(holder := holder);
    var attached := if holder == "" then False(WaitingForControlPlaneMachine) else True(FloatingIPAttached);
    s.(fip := Some(ip), obj := Some(Provisioned(s.obj.value, ip).(attached := attached)))
  }

  /** What every undisturbed reconcile leaves behind. */
  lemma CleanPassPlacesIp(valid: UuidCheck, s: State, pass: seq<Event>, ms: seq<MachineView>)
    requires Inv(s) && StartsReconcile(s) && CleanPass(valid, s, pass, ms)
    ensures var t := After(valid, s, pass);
            t.fip.Some? && IpFits(s, t.fip.value) && t == PassResult(valid, s, ms, t.fip.value)
  {
    var log := pass[1..|pass| - 1];
    ReconcilePlacesIp(valid, s, log);
    ObjectUntouched(valid, Started(s), log);
    var t := After(valid, Started(s), log);
    WholePatchCopies(s.obj.value, t.proc.cur);
    assert Apply(valid, t, Patch(true, true)) == t.(proc := Idle, obj := Some(t.proc.cur));
  }

  lemma {:induction false} ObjectUntouched(valid: UuidCheck, s: State, log: seq<Event>)
    requires LegalRun(valid, s, log)
    requires forall i :: 0 <= i < |log| ==> !IsEnvironment(log[i]) && !log[i].Patch?
    ensures var t := After(valid, s, log); t == s.(fip := t.fip, proc := t.proc)
  {
    if log != [] {
      ObjectUntouched(valid, s, log[..|log| - 1]);
    }
  }

  /** With readable provider IDs an undisturbed reconcile is possible from every state, with or
      without an IP. */
  lemma CleanPassExists(valid: UuidCheck, s: State, ms: seq<MachineView>, offer: Fip) returns (pass: seq<Event>)
    requires Inv(s) && StartsReconcile(s) && Proper(s.obj.value.host, s.pool, s.ipType, offer)
    requires Decide(valid, ms, HolderOf(s)) != BadProviderId
    ensures CleanPass(valid, s, pass, ms)
  {
    var log := Completes(valid, Started(s), ms, offer);
    ShownIsListed(log, ms);
    ReconcilePlacesIp(valid, s, log);
    assert At(After(valid, Started(s), log), End(Finished)) && Listed(log) == Some(ms);
    pass := PassOf(valid, s, log);
  }

  lemma PassOf(valid: UuidCheck, s: State, log: seq<Event>) returns (pass: seq<Event>)
    requires StartsReconcile(s) && LegalRun(valid, Started(s), log) && At(After(valid, Started(s), log), End(Finished))
    ensures |pass| >= 2 && pass[0] == Enter(true, false) && pass[|pass| - 1] == Patch(true, true)
    ensures pass[1..|pass| - 1] == log && LegalRun(valid, s, pass)
    ensures After(valid, s, pass) == Apply(valid, After(valid, Started(s), log), Patch(true, true))
  {
    var start, end := Enter(true, false), Patch(true, true);
    assert Legal(s, start) && Apply(valid, s, start) == Started(s);
    OneStep(valid, s, start);
    Append(valid, s, [start], log);
    Snoc(valid, s, [start] + log, end);
    pass := [start] + log + [end];
    assert pass[1..|pass| - 1] == log;
  }

  /** In particular: with a candidate in the list the IP ends up attached, and the next
      undisturbed reconcile that sees the same machines makes no detach or attach call. */
  lemma CleanPassAttaches(valid: UuidCheck, s: State, pass: seq<Event>, next: seq<Event>, ms: seq<MachineView>)
    requires Inv(s) && StartsReconcile(s) && CleanPass(valid, s, pass, ms)
    requires SaneUuids(valid) && !Shadowed(valid, ms) && HasCandidate(ms)
    ensures var t := After(valid, s, pass);
            && StartsReconcile(t) && HolderOf(t) != "" && WellPlaced(valid, ms, HolderOf(t))
            && t.obj.value.attached == True(FloatingIPAttached)
            && (CleanPass(valid, t, next, ms) ==>
                  forall i :: 0 <= i < |next| ==> !next[i].IpDetach? && !next[i].IpAttach?)
  {
    CleanPassPlacesIp(valid, s, pass, ms);
    var t := After(valid, s, pass);
    ReconcileAttaches(valid, s, pass[1..|pass| - 1]);
    ReconcilePlacesIp(valid, s, pass[1..|pass| - 1]);
    CandidateMeansWellPlaced(valid, ms, HolderOf(s));
    if CleanPass(valid, t, next, ms) {
      NextPassIsQuiet(valid, t, next, ms, HolderOf(s));
    }
  }

  lemma NextPassIsQuiet(valid: UuidCheck, s: State, pass: seq<Event>, ms: seq<MachineView>, holder: string)
    requires StartsReconcile(s) && CleanPass(valid, s, pass, ms)
    requires SaneUuids(valid) && !Shadowed(valid, ms)
    requires HolderOf(s) == FinalHolder(Decide(valid, ms, holder), holder)
    ensures forall i :: 0 <= i < |pass| ==> !pass[i].IpDetach? && !pass[i].IpAttach?
  {
    CleanPassMiddle(valid, s, pass, ms);
    PlacedIpStays(valid, s, ms, holder, pass[1..|pass| - 1]);
  }

  lemma CleanPassMiddle(valid: UuidCheck, s: State, pass: seq<Event>, ms: seq<MachineView>)
    requires StartsReconcile(s) && CleanPass(valid, s, pass, ms)
    ensures var log := pass[1..|pass| - 1];
            && LegalRun(valid, Started(s), log) && WithinReconcile(log) && Shows(log, ms)
            && forall i :: 0 <= i < |pass| ==> pass[i].Enter? || pass[i].Patch? || pass[i] == log[i - 1]
  {
  }

  /** And an undisturbed reconcile never takes the IP off an own machine without putting it on
      another one. */
  lemma CleanPassNeverAbandons(valid: UuidCheck, s: State, pass: seq<Event>, ms: seq<MachineView>)
    requires Inv(s) && StartsReconcile(s) && CleanPass(valid, s, pass, ms) && SaneUuids(valid)
    requires HolderOf(s) != "" && exists k :: 0 <= k < |ms| && Matches(valid, ms[k], HolderOf(s))
    ensures var t := After(valid, s, pass);
            HolderOf(t) != "" && t.obj.Some? && t.obj.value.attached == True(FloatingIPAttached)
  {
    CleanPassPlacesIp(valid, s, pass, ms);
    ReconcileNeverAbandons(valid, s, pass[1..|pass| - 1]);
  }

  // ---- When the endpoint stays ------------------------------------------------------------

  /** Whatever came before: once a reconcile has ended without an error and the spec half of its
      patch has landed, host and port never change again in any run, whether it found the IP or
      created it, and even if the IP disappears and is created anew, as long as others do not
      displace it. */
  lemma EndpointIsFixed(valid: UuidCheck, s: State, log: seq<Event>, statusOk: bool, more: seq<Event>)
    requires Inv(s) && StartsReconcile(s) && LegalRun(valid, Started(s), log) && WithinReconcile(log)
    requires At(After(valid, Started(s), log), End(Finished))
    requires var u := Apply(valid, After(valid, Started(s), log), Patch(true, statusOk));
             LegalRun(valid, u, more) && NeverDisplaced(valid, u, more)
    ensures var u := Apply(valid, After(valid, Started(s), log), Patch(true, statusOk));
            var v := After(valid, u, more);
            && HostAgrees(u) && HostAgrees(v)
            && (u.obj.Some? ==> u.obj.value.port != 0 && u.fip.Some? && u.obj.value.host == u.fip.value.addr)
            && (v.obj.Some? ==> u.obj.Some? && v.obj.value.port == u.obj.value.port
                                && (u.obj.value.host != "" ==> v.obj.value.host == u.obj.value.host))
  {
    var t := After(valid, Started(s), log);
    ReconcileRecordsIp(valid, s, log, true, statusOk);
    ReconcilePlacesIp(valid, s, log);
    StartedInv(valid, s);
    InvRun(valid, Started(s), log);
    InvStep(valid, t, Patch(true, statusOk));
    EndpointRun(valid, Apply(valid, t, Patch(true, statusOk)), more);
  }

  /** However the run goes on, as long as others do not displace the IP. */
  ghost predicate EndpointStays(valid: UuidCheck, s: State) {
    forall more :: LegalRun(valid, s, more) && NeverDisplaced(valid, s, more) ==>
      EndpointKept(s.obj, After(valid, s, more).obj)
  }

  /** A host on record is safe exactly when the IP, if there is one, has its address. */
  lemma EndpointStaysIff(valid: UuidCheck, s: State)
    requires Inv(s) && StartsReconcile(s)
    ensures EndpointStays(valid, s) <==> HostAgrees(s)
  {
    if HostAgrees(s) {
      forall more | LegalRun(valid, s, more) && NeverDisplaced(valid, s, more)
        ensures EndpointKept(s.obj, After(valid, s, more).obj)
      {
        EndpointRun(valid, s, more);
      }
    } else {
      assert Decide(valid, [], HolderOf(s)) == Move("");
      var pass := CleanPassExists(valid, s, [], Fip(s.obj.value.host, "", Pool("")));
      CleanPassPlacesIp(valid, s, pass, []);
      CleanPassDisplacesNothing(valid, s, pass, []);
      assert !EndpointKept(s.obj, After(valid, s, pass).obj);
    }
  }

  lemma CleanPassDisplacesNothing(valid: UuidCheck, s: State, pass: seq<Event>, ms: seq<MachineView>)
    requires StartsReconcile(s) && CleanPass(valid, s, pass, ms)
    ensures NeverDisplaced(valid, s, pass)
  {
    var log := pass[1..|pass| - 1];
    assert forall i :: 0 < i < |pass| - 1 ==> pass[i] == log[i - 1];
    NothingMadeIsNothingDisplaced(valid, s, pass);
  }

  lemma {:induction false} NothingMadeIsNothingDisplaced(valid: UuidCheck, s: State, log: seq<Event>)
    requires LegalRun(valid, s, log) && NoForeignIp(log)
    ensures NeverDisplaced(valid, s, log)
  {
    if log != [] {
      NothingMadeIsNothingDisplaced(valid, s, log[..|log| - 1]);
    }
  }

  // ---- When a deletion ends ---------------------------------------------------------------

  predicate AwaitsDeletion(s: State) {
    s.proc.Idle? && s.obj.Some? && s.obj.value.deleting
  }

  /** The state right after a reconcile of a deletion started. */
  function DeletionStarted(s: State): State
    requires AwaitsDeletion(s)
  {
    s.(proc := Busy(s.obj.value, s.obj.value, DeletingIp))
  }

  /** Where a reconcile of a deletion is by `t`. */
  predicate DeletionProgress(s: State, t: State, answered: bool)
    requires AwaitsDeletion(s)
  {
    && t.obj == s.obj && t.proc.Busy? && t.proc.orig == s.obj.value
    && match t.proc.pc
       case DeletingIp => t.fip == s.fip && t.proc.cur == s.obj.value
       case End(Finished) => HolderOf(s) == "" && t.fip.None? && t.proc.cur == s.obj.value.(fin := false)
       case End(Errored) => t.proc.cur == s.obj.value && (answered ==> HolderOf(s) != "" && t.fip == s.fip)
       case _ => false
  }

  lemma DeletionProgressStep(valid: UuidCheck, s: State, t: State, e: Event, answered: bool)
    requires Inv(s) && AwaitsDeletion(s) && DeletionProgress(s, t, answered) && Legal(t, e)
    requires !e.Enter? && !e.Patch? && !e.Crash? && !MovedByOthers(e)
    ensures DeletionProgress(s, Apply(valid, t, e), answered && Answered(e))
  {
  }

  lemma {:induction false} DeletionProgressRun(valid: UuidCheck, s: State, log: seq<Event>)
    requires Inv(s) && AwaitsDeletion(s) && LegalRun(valid, DeletionStarted(s), log) && WithinReconcile(log)
    ensures DeletionProgress(s, After(valid, DeletionStarted(s), log), AllAnswered(log))
  {
    if log != [] {
      var init, last := log[..|log| - 1], log[|log| - 1];
      DeletionProgressRun(valid, s, init);
      DeletionProgressStep(valid, s, After(valid, DeletionStarted(s), init), last, AllAnswered(init));
      assert log == init + [last];
    }
  }

  /** A reconcile of a deletion, however interleaved with users, that comes to its end with its
      calls answered does so without an error exactly when the IP is missing or unattached, and
      then the patch takes the object away after the IP. It never detaches the IP itself. */
  lemma DeletionPassEndsIff(valid: UuidCheck, s: State, log: seq<Event>, ownerDeleting: bool, statusOk: bool)
    requires Inv(s) && AwaitsDeletion(s) && LegalRun(valid, DeletionStarted(s), log) && WithinReconcile(log)
    requires After(valid, DeletionStarted(s), log).proc.Busy? && After(valid, DeletionStarted(s), log).proc.pc.End?
    ensures Legal(s, Enter(true, ownerDeleting)) && Apply(valid, s, Enter(true, ownerDeleting)) == DeletionStarted(s)
    ensures var t := After(valid, DeletionStarted(s), log);
            && (At(t, End(Finished)) ==> HolderOf(s) == "")
            && (AllAnswered(log) && HolderOf(s) == "" ==> At(t, End(Finished)))
            && (AllAnswered(log) && HolderOf(s) != "" ==> At(t, End(Errored)) && t.fip == s.fip)
            && (At(t, End(Finished)) ==>
                  && Legal(t, Patch(true, statusOk))
                  && var u := Apply(valid, t, Patch(true, statusOk)); u.obj.None? && u.fip.None?)
  {
    DeletionProgressRun(valid, s, log);
  }

  /** A deleting cluster whose IP is attached, and no reconcile that would detach it. */
  predicate Stuck(s: State) {
    && s.obj.Some? && s.obj.value.deleting && s.obj.value.fin && HolderOf(s) != ""
    && (s.proc.Busy? ==>
          && s.proc.cur == s.proc.orig
          && (s.proc.pc == DeletingIp || s.proc.pc == End(Errored)))
  }

  lemma {:induction false} StuckRun(valid: UuidCheck, s: State, log: seq<Event>)
    requires Stuck(s) && LegalRun(valid, s, log)
    requires forall i :: 0 <= i < |log| ==> !MovedByOthers(log[i])
    ensures Stuck(After(valid, s, log)) && HolderOf(After(valid, s, log)) == HolderOf(s)
  {
    if log != [] {
      StuckRun(valid, s, log[..|log| - 1]);
      StuckStep(valid, After(valid, s, log[..|log| - 1]), log[|log| - 1]);
    }
  }

  lemma StuckStep(valid: UuidCheck, s: State, e: Event)
    requires Stuck(s) && Legal(s, e) && !MovedByOthers(e)
    ensures Stuck(Apply(valid, s, e)) && HolderOf(Apply(valid, s, e)) == HolderOf(s)
  {
  }

  ghost predicate DeletionCanEnd(valid: UuidCheck, s: State) {
    exists log :: LegalRun(valid, s, log) && (forall i :: 0 <= i < |log| ==> !MovedByOthers(log[i]))
                  && After(valid, s, log).obj.None?
  }

  /** The controller alone can bring the deletion of a cluster to its end exactly when the IP is
      missing or unattached. While it is attached, no number of reconciles will do, until the
      cloud or others detach it. */
  lemma DeletionEndsIff(valid: UuidCheck, s: State)
    requires Inv(s) && AwaitsDeletion(s)
    ensures DeletionCanEnd(valid, s) <==> HolderOf(s) == ""
  {
    if HolderOf(s) == "" {
      var log := DeletionPass(valid, s);
    } else {
      forall log | LegalRun(valid, s, log) && (forall i :: 0 <= i < |log| ==> !MovedByOthers(log[i]))
        ensures After(valid, s, log).obj.Some?
      {
        StuckRun(valid, s, log);
      }
    }
  }

  lemma DeletionPass(valid: UuidCheck, s: State) returns (log: seq<Event>)
    requires Inv(s) && AwaitsDeletion(s) && HolderOf(s) == ""
    ensures LegalRun(valid, s, log) && After(valid, s, log).obj.None?
    ensures forall i :: 0 <= i < |log| ==> !MovedByOthers(log[i])
  {
    var start, call, patch := Enter(true, false), IpDelete(Served), Patch(true, true);
    var t := DeletionStarted(s);
    assert Legal(s, start) && Apply(valid, s, start) == t;
    assert Legal(t, call) && At(Apply(valid, t, call), End(Finished));
    TwoSteps(valid, s, start, call);
    Snoc(valid, s, [start, call], patch);
    log := [start, call] + [patch];
  }

  // ---- What is not bounded ----------------------------------------------------------------

  /** How often a detach call took effect. */
  function Detachments(valid: UuidCheck, s: State, log: seq<Event>): nat
    requires LegalRun(valid, s, log)
  {
    if log == [] then 0
    else
      var init := log[..|log| - 1];
      Detachments(valid, s, init) + (if Detaches(After(valid, s, init), log[|log| - 1]) then 1 else 0)
  }

  function DetachCalls(log: seq<Event>): nat {
    if log == [] then 0 else DetachCalls(log[..|log| - 1]) + (if log[|log| - 1].IpDetach? then 1 else 0)
  }

  lemma {:induction false} AppendCounts(valid: UuidCheck, s: State, log: seq<Event>, more: seq<Event>)
    requires LegalRun(valid, s, log) && LegalRun(valid, After(valid, s, log), more) && LegalRun(valid, s, log + more)
    ensures DetachCalls(log + more) == DetachCalls(log) + DetachCalls(more)
    ensures Detachments(valid, s, log + more) ==
            Detachments(valid, s, log) + Detachments(valid, After(valid, s, log), more)
  {
    if more == [] {
      assert log + more == log;
    } else {
      var init := more[..|more| - 1];
      assert (log + more)[..|log + more| - 1] == log + init;
      AppendCounts(valid, s, log, init);
      Append(valid, s, log, init);
    }
  }

  /** One more step of a run, and what it adds to the counts. */
  lemma Counted(valid: UuidCheck, s: State, log: seq<Event>, e: Event)
    requires LegalRun(valid, s, log) && Legal(After(valid, s, log), e)
    ensures LegalRun(valid, s, log + [e]) && After(valid, s, log + [e]) == Apply(valid, After(valid, s, log), e)
    ensures DetachCalls(log + [e]) == DetachCalls(log) + (if e.IpDetach? then 1 else 0)
    ensures Detachments(valid, s, log + [e]) ==
            Detachments(valid, s, log) + (if Detaches(After(valid, s, log), e) then 1 else 0)
  {
    Snoc(valid, s, log, e);
    assert (log + [e])[..|log|] == log;
  }

  /** The IP is on a holder that the decision wants to move it from. */
  predicate WantsToMove(valid: UuidCheck, s: State, ms: seq<MachineView>) {
    Inv(s) && StartsReconcile(s) && HolderOf(s) != "" && Decide(valid, ms, HolderOf(s)).Move?
  }

  lemma FindsIp(valid: UuidCheck, s: State) returns (log: seq<Event>)
    requires StartsReconcile(s) && s.fip.Some?
    ensures LegalRun(valid, s, log) && DetachCalls(log) == 0
    ensures After(valid, s, log) ==
            s.(proc := Busy(s.obj.value, Provisioned(s.obj.value, s.fip.value), Listing(s.fip.value)))
  {
    var start, view := Enter(true, false), IpView(true);
    log := [];
    assert LegalRun(valid, s, log) && After(valid, s, log) == s;
    assert Legal(s, start) && Apply(valid, s, start) == Started(s);
    Counted(valid, s, log, start);
    log := log + [start];
    assert After(valid, s, log) == Started(s) && Legal(Started(s), view);
    Counted(valid, s, log, view);
    log := log + [view];
  }

  lemma ReachesDetach(valid: UuidCheck, s: State, ms: seq<MachineView>) returns (log: seq<Event>)
    requires WantsToMove(valid, s, ms)
    ensures LegalRun(valid, s, log) && DetachCalls(log) == 0
    ensures var ip := s.fip.value;
            After(valid, s, log) ==
            s.(proc := Busy(s.obj.value, Provisioned(s.obj.value, ip),
                            Detaching(ip, Decide(valid, ms, ip.holder).target)))
  {
    var list := ListMachines(Some(ms));
    log := FindsIp(valid, s);
    Counted(valid, s, log, list);
    log := log + [list];
  }

  /** A reconcile whose detach request never arrives leaves everything as it found it, but for
      what it recorded. */
  lemma RefusedPass(valid: UuidCheck, s: State, ms: seq<MachineView>) returns (log: seq<Event>)
    requires WantsToMove(valid, s, ms)
    ensures LegalRun(valid, s, log) && DetachCalls(log) == 1
    ensures var t := After(valid, s, log); t.fip == s.fip && WantsToMove(valid, t, ms)
  {
    var start := ReachesDetach(valid, s, ms);
    var t := After(valid, s, start);
    var u := t.(proc := Busy(t.proc.orig, t.proc.cur, End(Errored)));
    var detach, patch := IpDetach(Dropped), Patch(true, true);
    assert Legal(t, detach) && Apply(valid, t, detach) == u;
    Counted(valid, s, start, detach);
    WholePatchCopies(s.obj.value, u.proc.cur);
    assert Legal(u, patch) && Apply(valid, u, patch) == s.(obj := Some(u.proc.cur));
    Counted(valid, s, start + [detach], patch);
    log := start + [detach] + [patch];
    InvRun(valid, s, log);
  }

  /** There is no bound on detach calls that fail: each reconcile may make one again. */
  lemma {:induction false} RefusedDetachesRepeat(valid: UuidCheck, s: State, ms: seq<MachineView>, n: nat)
    returns (log: seq<Event>)
    requires WantsToMove(valid, s, ms)
    ensures LegalRun(valid, s, log) && DetachCalls(log) == n && After(valid, s, log).fip == s.fip
    decreases n
  {
    log := [];
    if n > 0 {
      var pass := RefusedPass(valid, s, ms);
      var rest := RefusedDetachesRepeat(valid, After(valid, s, pass), ms, n - 1);
      Append(valid, s, pass, rest);
      AppendCounts(valid, s, pass, rest);
      log := pass + rest;
    }
  }

  lemma DetachesAndAttaches(valid: UuidCheck, s: State, log: seq<Event>) returns (more: seq<Event>)
    requires LegalRun(valid, s, log)
    requires var t := After(valid, s, log);
             t.fip.Some? && t.fip.value.holder != "" && At(t, Detaching(t.fip.value, t.fip.value.holder))
    ensures LegalRun(valid, s, more) && Detachments(valid, s, more) >= 1
    ensures var t := After(valid, s, log);
            After(valid, s, more) == t.(proc := OnPlaced(t.proc.orig, t.proc.cur, t.fip.value))
  {
    var t := After(valid, s, log);
    var detach, attach := IpDetach(Served), IpAttach(Served);
    DetachWorks(valid, t);
    Counted(valid, s, log, detach);
    AttachWorks(valid, Apply(valid, t, detach));
    Counted(valid, s, log + [detach], attach);
    more := log + [detach] + [attach];
  }

  lemma DetachWorks(valid: UuidCheck, s: State)
    requires s.fip.Some? && s.fip.value.holder != "" && s.proc.Busy? && s.proc.pc.Detaching? && s.proc.pc.target != ""
    ensures var ip := s.fip.value.(holder := "");
            && Legal(s, IpDetach(Served)) && Detaches(s, IpDetach(Served))
            && Apply(valid, s, IpDetach(Served)) ==
               s.(fip := Some(ip), proc := Busy(s.proc.orig, s.proc.cur, Attaching(ip, s.proc.pc.target)))
  {
  }

  lemma AttachWorks(valid: UuidCheck, s: State)
    requires s.fip.Some? && s.fip.value.holder == "" && s.proc.Busy? && s.proc.pc.Attaching?
    ensures var ip := s.fip.value.(holder := s.proc.pc.target);
            && Legal(s, IpAttach(Served))
            && Apply(valid, s, IpAttach(Served)) == s.(fip := Some(ip), proc := OnPlaced(s.proc.orig, s.proc.cur, ip))
  {
  }

  /** A reconcile that moves the IP to where it is. */
  lemma FlappingPass(valid: UuidCheck, s: State, ms: seq<MachineView>) returns (log: seq<Event>)
    requires WantsToMove(valid, s, ms) && Decide(valid, ms, HolderOf(s)) == Move(HolderOf(s))
    ensures LegalRun(valid, s, log) && Detachments(valid, s, log) >= 1
    ensures var t := After(valid, s, log); t.fip == s.fip && WantsToMove(valid, t, ms)
  {
    var start := ReachesDetach(valid, s, ms);
    var moved := DetachesAndAttaches(valid, s, start);
    var v, patch := After(valid, s, moved), Patch(true, true);
    WholePatchCopies(s.obj.value, v.proc.cur);
    assert Legal(v, patch) && Apply(valid, v, patch) == s.(obj := Some(v.proc.cur));
    Counted(valid, s, moved, patch);
    log := moved + [patch];
    InvRun(valid, s, log);
  }

  /** If the target shares its instance with a deleting machine earlier in the list, the IP is
      detached and attached again by every reconcile, for ever. */
  lemma {:induction false} ShadowedTargetFlaps(valid: UuidCheck, s: State, ms: seq<MachineView>, n: nat)
    returns (log: seq<Event>)
    requires WantsToMove(valid, s, ms) && Decide(valid, ms, HolderOf(s)) == Move(HolderOf(s))
    ensures LegalRun(valid, s, log) && Detachments(valid, s, log) >= n && After(valid, s, log).fip == s.fip
    decreases n
  {
    log := [];
    if n > 0 {
      var pass := FlappingPass(valid, s, ms);
      var rest := ShadowedTargetFlaps(valid, After(valid, s, pass), ms, n - 1);
      Append(valid, s, pass, rest);
      AppendCounts(valid, s, pass, rest);
      log := pass + rest;
    }
  }
}
