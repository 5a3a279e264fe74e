/** One OxideCluster as a transition system: its Kubernetes object, its floating IP, and at most
    one reconcile in flight, built like the machine model. */
module ClusterModel {
  import opened Basics
  import opened Cloud
  import opened Attachment

  // ---- State ------------------------------------------------------------------------------

  datatype Obj = Obj(
    fin: bool,
    deleting: bool,
    host: string,
    port: nat,
    provisioned: Option<bool>,
    ready: Condition,
    attached: Condition)

  /** Where the cloud took an address from. */
  datatype Source = Pool(name: string) | DefaultPool(ipType: string)

  /** `holder` is the instance the IP is attached to, "" for none. */
  datatype Fip = Fip(addr: string, holder: string, source: Source)

  datatype Pc =
    | DeletingIp
    | LookingUpIp
    | CreatingIp
    | Listing(ip: Fip)
    | Detaching(ip: Fip, target: string)
    | Attaching(ip: Fip, target: string)
    | End(verdict: Verdict)

  datatype Proc = Idle | Busy(orig: Obj, cur: Obj, pc: Pc)

  /** `pool` and `ipType` are the spec's wishes about the IP, `asked` whether deletion was ever
      requested. */
  datatype State = State(
    pool: string,
    ipType: string,
    obj: Option<Obj>,
    fip: Option<Fip>,
    proc: Proc,
    asked: bool)

  datatype Event =
    | Enter(clientBuilt: bool, ownerDeleting: bool)
    | IpDelete(delivery: Delivery)
    | IpView(up: bool)
    | IpCreate(delivery: Delivery, addr: string, source: Source)
    | ListMachines(ms: Option<seq<MachineView>>)
    | IpDetach(delivery: Delivery)
    | IpAttach(delivery: Delivery)
    | Patch(specOk: bool, statusOk: bool)
    | Crash
    | UserDelete
    | OobAttach(instance: string)
    | OobDetach
    | OobIpGone
    | OobIp(addr: string, source: Source)

  /** `OobDetach` includes the cloud letting go of the IP when its holder is destroyed. */
  predicate IsEnvironment(e: Event) {
    e.UserDelete? || e.OobAttach? || e.OobDetach? || e.OobIpGone? || e.OobIp?
  }

  // ---- The reconcile as an automaton ------------------------------------------------------

  function OnEnter(o: Obj, clientBuilt: bool, ownerDeleting: bool): Proc {
    if !clientBuilt then Busy(o, o, End(Errored))
    else if o.deleting then Busy(o, o, DeletingIp)
    else if ownerDeleting then Busy(o, o, End(Finished))
    else Busy(o, o.(fin := true), LookingUpIp)
  }

  function OnIpDelete(orig: Obj, cur: Obj, r: Reply<()>): Proc {
    if r.Ok? || r.NotFound? then Busy(orig, cur.(fin := false), End(Finished))
    else Busy(orig, cur, End(Errored))
  }

  const DEFAULT_PORT: nat := 6443

  /** The IP is there: record it as the endpoint, then see to its attachment. */
  function WithEndpoint(cur: Obj, ip: Fip): Obj {
    cur.(host := ip.addr,
         port := if cur.port == 0 then DEFAULT_PORT else cur.port,
         provisioned := Some(true),
         ready := True(FloatingIPProvisioned))
  }

  function OnIpView(orig: Obj, cur: Obj, r: Reply<Fip>): Proc {
    match r
    case Ok(ip) => Busy(orig, WithEndpoint(cur, ip), Listing(ip))
    case NotFound => Busy(orig, cur, CreatingIp)
    case _ => Busy(orig, cur, End(Errored))
  }

  function OnIpCreate(orig: Obj, cur: Obj, r: Reply<Fip>): Proc {
    match r
    case Ok(ip) => Busy(orig, WithEndpoint(cur, ip), Listing(ip))
    case _ => Busy(orig, cur, End(Errored))
  }

  function AttachedCondition(ip: Fip): Condition {
    if ip.holder != "" then True(FloatingIPAttached) else False(WaitingForControlPlaneMachine)
  }

  function OnPlaced(orig: Obj, cur: Obj, ip: Fip): Proc {
    Busy(orig, cur.(attached := AttachedCondition(ip)), End(Finished))
  }

  /** The IP is unattached now. */
  function OnFree(orig: Obj, cur: Obj, ip: Fip, target: string): Proc {
    if target != "" then Busy(orig, cur, Attaching(ip, target)) else OnPlaced(orig, cur, ip)
  }

  function OnChoice(orig: Obj, cur: Obj, ip: Fip, choice: Choice): Proc {
    match choice
    case BadProviderId => Busy(orig, cur, End(Errored))
    case Stay => OnPlaced(orig, cur, ip)
    case Move(target) =>
      if ip.holder != "" then Busy(orig, cur, Detaching(ip, target)) else OnFree(orig, cur, ip, target)
  }

  function OnList(valid: UuidCheck, orig: Obj, cur: Obj, ip: Fip, ms: Option<seq<MachineView>>): Proc {
    match ms
    case None => Busy(orig, cur, End(Errored))
    case Some(list) => OnChoice(orig, cur, ip, Decide(valid, list, ip.holder))
  }

  function OnDetach(orig: Obj, cur: Obj, target: string, r: Reply<Fip>): Proc {
    match r
    case Ok(ip) => OnFree(orig, cur, ip, target)
    case _ => Busy(orig, cur, End(Errored))
  }

  function OnAttach(orig: Obj, cur: Obj, r: Reply<Fip>): Proc {
    match r
    case Ok(ip) => OnPlaced(orig, cur, ip)
    case _ => Busy(orig, cur, End(Errored))
  }

  // ---- The cloud --------------------------------------------------------------------------

  datatype Allocator = Explicit(ip: string) | FromPool(pool: string) | FromDefaultPool(ipType: string)

  /** `floatingIPAllocator`: the endpoint host if there is one, else the pool, else a default. */
  function FloatingIPAllocator(host: string, pool: string, ipType: string): Allocator {
    if host != "" then Explicit(host) else if pool != "" then FromPool(pool) else FromDefaultPool(ipType)
  }

  /** The cloud allocates the address it is asked for, or one from where it is asked to take it,
      and never an empty one. Without an IP type any default pool will do. */
  predicate Honours(a: Allocator, addr: string, source: Source) {
    addr != "" &&
    match a
    case Explicit(ip) => addr == ip
    case FromPool(pool) => source == Pool(pool)
    case FromDefaultPool(ipType) => source.DefaultPool? && (ipType != "" ==> source.ipType == ipType)
  }

  function IpDeleteReply(s: State, delivery: Delivery): Reply<()> {
    if s.fip.None? && delivery.Served? then NotFound else Answer(delivery, CanDeleteIp(s), ())
  }

  predicate CanDeleteIp(s: State) {
    s.fip.Some? && s.fip.value.holder == ""
  }

  predicate CanDetach(s: State) {
    s.fip.Some? && s.fip.value.holder != ""
  }

  /** Only an unattached IP can be attached. */
  predicate CanAttach(s: State) {
    s.fip.Some? && s.fip.value.holder == ""
  }

  function Placed(s: State, holder: string): Fip
    requires s.fip.Some?
  {
    s.fip.value.(holder := holder)
  }

  function DetachReply(s: State, delivery: Delivery): Reply<Fip> {
    if CanDetach(s) then Answer(delivery, true, Placed(s, "")) else Error
  }

  function AttachReply(s: State, delivery: Delivery, target: string): Reply<Fip> {
    if CanAttach(s) then Answer(delivery, true, Placed(s, target)) else Error
  }

  // ---- The API server ---------------------------------------------------------------------

  function Merged(o: Obj, orig: Obj, cur: Obj, specOk: bool, statusOk: bool): Obj {
    o.(fin := if specOk && cur.fin != orig.fin then cur.fin else o.fin,
       host := if specOk && cur.host != orig.host then cur.host else o.host,
       port := if specOk && cur.port != orig.port then cur.port else o.port,
       provisioned := if statusOk && cur.provisioned != orig.provisioned then cur.provisioned else o.provisioned,
       ready := if statusOk && cur.ready != orig.ready then cur.ready else o.ready,
       attached := if statusOk && cur.attached != orig.attached then cur.attached else o.attached)
  }

  lemma WholePatchCopies(o: Obj, cur: Obj)
    requires cur.deleting == o.deleting
    ensures Merged(o, o, cur, true, true) == cur
  {
  }

  function Kept(o: Obj): Option<Obj> {
    if o.deleting && !o.fin then None else Some(o)
  }

  // ---- Transitions ------------------------------------------------------------------------

  predicate At(s: State, pc: Pc) {
    s.proc.Busy? && s.proc.pc == pc
  }

  predicate Legal(s: State, e: Event) {
    match e
    case Enter(_, _) => s.proc.Idle? && s.obj.Some?
    case IpDelete(_) => At(s, DeletingIp)
    case IpView(_) => At(s, LookingUpIp)
    case IpCreate(_, addr, source) =>
      At(s, CreatingIp) && Honours(FloatingIPAllocator(s.proc.cur.host, s.pool, s.ipType), addr, source)
    case ListMachines(_) => s.proc.Busy? && s.proc.pc.Listing?
    case IpDetach(_) => s.proc.Busy? && s.proc.pc.Detaching?
    case IpAttach(_) => s.proc.Busy? && s.proc.pc.Attaching?
    case Patch(_, _) => s.proc.Busy? && s.proc.pc.End?
    case Crash => s.proc.Busy?
    case UserDelete => s.obj.Some?
    case OobAttach(i) => CanAttach(s) && i != ""
    case OobDetach => CanDetach(s)
    case OobIpGone => s.fip.Some?
    case OobIp(addr, _) => s.fip.None? && addr != ""
  }

  function NextProc(valid: UuidCheck, s: State, e: Event): Proc
    requires Legal(s, e) && !IsEnvironment(e)
  {
    if e.Enter? then OnEnter(s.obj.value, e.clientBuilt, e.ownerDeleting)
    else
      var (orig, cur, pc) := (s.proc.orig, s.proc.cur, s.proc.pc);
      match e
      case IpDelete(d) => OnIpDelete(orig, cur, IpDeleteReply(s, d))
      case IpView(up) => OnIpView(orig, cur, ViewReply(s.fip, up))
      case IpCreate(d, addr, source) => OnIpCreate(orig, cur, Answer(d, s.fip.None?, Fip(addr, "", source)))
      case ListMachines(ms) => OnList(valid, orig, cur, pc.ip, ms)
      case IpDetach(d) => OnDetach(orig, cur, pc.target, DetachReply(s, d))
      case IpAttach(d) => OnAttach(orig, cur, AttachReply(s, d, pc.target))
      case _ => Idle
  }

  /** The IP is really detached, or really attached, by this step of a reconcile. */
  predicate Detaches(s: State, e: Event) {
    e.IpDetach? && !e.delivery.Dropped? && CanDetach(s)
  }

  predicate Attaches(s: State, e: Event) {
    e.IpAttach? && !e.delivery.Dropped? && CanAttach(s)
  }

  function Effect(s: State, e: Event): State
    requires Legal(s, e)
  {
    match e
    case IpDelete(d) => if !d.Dropped? && CanDeleteIp(s) then s.(fip := None) else s
    case IpCreate(d, addr, source) =>
      if !d.Dropped? && s.fip.None? then s.(fip := Some(Fip(addr, "", source))) else s
    case IpDetach(_) => if Detaches(s, e) then s.(fip := Some(Placed(s, ""))) else s
    case IpAttach(_) => if Attaches(s, e) then s.(fip := Some(Placed(s, s.proc.pc.target))) else s
    case Patch(specOk, statusOk) =>
      if s.obj.Some?
      then s.(obj := Kept(Merged(s.obj.value, s.proc.orig, s.proc.cur, specOk, statusOk))) else s
    case UserDelete => s.(obj := Kept(s.obj.value.(deleting := true)), asked := true)
    case OobAttach(i) => s.(fip := Some(Placed(s, i)))
    case OobDetach => s.(fip := Some(Placed(s, "")))
    case OobIpGone => s.(fip := None)
    case OobIp(addr, source) => s.(fip := Some(Fip(addr, "", source)))
    case _ => s
  }

  function Apply(valid: UuidCheck, s: State, e: Event): State
    requires Legal(s, e)
  {
    Effect(s, e).(proc := if IsEnvironment(e) then s.proc else NextProc(valid, s, e))
  }

  // ---- Runs -------------------------------------------------------------------------------

  predicate LegalRun(valid: UuidCheck, s: State, log: seq<Event>)
    decreases |log|, 0
  {
    log == [] ||
    var init := log[..|log| - 1];
    LegalRun(valid, s, init) && Legal(After(valid, s, init), log[|log| - 1])
  }

  function After(valid: UuidCheck, s: State, log: seq<Event>): State
    requires LegalRun(valid, s, log)
    decreases |log|, 1
  {
    if log == [] then s else Apply(valid, After(valid, s, log[..|log| - 1]), log[|log| - 1])
  }

  lemma Snoc(valid: UuidCheck, s: State, log: seq<Event>, e: Event)
    requires LegalRun(valid, s, log) && Legal(After(valid, s, log), e)
    ensures LegalRun(valid, s, log + [e])
    ensures After(valid, s, log + [e]) == Apply(valid, After(valid, s, log), e)
  {
    assert (log + [e])[..|log|] == log;
  }

  lemma OneStep(valid: UuidCheck, s: State, a: Event)
    requires Legal(s, a)
    ensures LegalRun(valid, s, [a]) && After(valid, s, [a]) == Apply(valid, s, a)
  {
    assert LegalRun(valid, s, []) && After(valid, s, []) == s;
    Snoc(valid, s, [], a);
    assert [] + [a] == [a];
  }

  lemma TwoSteps(valid: UuidCheck, s: State, a: Event, b: Event)
    requires Legal(s, a) && Legal(Apply(valid, s, a), b)
    ensures LegalRun(valid, s, [a, b]) && After(valid, s, [a, b]) == Apply(valid, Apply(valid, s, a), b)
  {
    OneStep(valid, s, a);
    Snoc(valid, s, [a], b);
    assert [a] + [b] == [a, b];
  }

  /** A run from where another one ended continues it. */
  lemma {:induction false} Append(valid: UuidCheck, s: State, log: seq<Event>, more: seq<Event>)
    requires LegalRun(valid, s, log) && LegalRun(valid, After(valid, s, log), more)
    ensures LegalRun(valid, s, log + more)
    ensures After(valid, s, log + more) == After(valid, After(valid, s, log), more)
  {
    if more == [] {
      assert log + more == log;
    } else {
      var init, last := more[..|more| - 1], more[|more| - 1];
      Append(valid, s, log, init);
      Snoc(valid, s, log + init, last);
      Regroup(log, more);
    }
  }

  /** A new cluster; the user may have asked for a host. An IP of its name may already exist. */
  predicate Init(s: State) {
    && s.obj.Some? && !s.obj.value.fin && !s.obj.value.deleting
    && s.obj.value.provisioned.None? && s.obj.value.ready.Unset? && s.obj.value.attached.Unset?
    && (s.fip.Some? ==> s.fip.value.addr != "") && s.proc.Idle? && !s.asked
  }
}
