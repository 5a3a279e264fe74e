/** Both controllers over one cloud: the machines of a cluster, each stepping on its own, and
    the cluster that lists them and moves its floating IP between their instances. */
module TwoControllers {
  import opened Basics
  import opened Attachment
  import ProviderId
  import M = MachineModel
  import MI = MachineInvariants
  import C = ClusterModel
  import CR = ClusterRuns

  type Uid = nat

  /** Who attached the IP to its current holder. */
  datatype Tag = Free | Ours(machine: Uid) | Others

  /** `machines` keeps objects that are gone. `aim` is the machine the last list request made
      the target, `charged` are the machines the IP was ever detached from. */
  datatype Sys = Sys(
    machines: map<Uid, M.State>,
    cluster: C.State,
    tag: Tag,
    aim: Option<Uid>,
    charged: set<Uid>)

  datatype Event =
    | Machine(u: Uid, e: M.Event)
    | NewMachine(u: Uid, m: M.State)
    | Remade(u: Uid, before: Uid, m: M.State)
    | Cluster(c: C.Event)
    | List(us: seq<Uid>)

  // ---- Transitions ------------------------------------------------------------------------

  predicate Fresh(s: Sys, ids: set<string>) {
    forall v :: v in s.machines ==> ids !! s.machines[v].ids
  }

  /** Instance ids are unique: a new one is not the id of any instance seen before. */
  predicate FreshStep(s: Sys, e: M.Event) {
    (e.InstanceCreate? || e.OobInstance?) ==> Fresh(s, {e.id})
  }

  /** Whose instance and disk have passed to another machine. */
  function Vacated(m: M.State, ids: set<string>): M.State {
    m.(inst := None, disk := None, ids := m.ids - ids)
  }

  predicate Present(s: Sys, u: Uid) {
    u in s.machines && s.machines[u].obj.Some?
  }

  function View(o: M.Obj): MachineView {
    MachineView(o.pid, o.provisioned, o.deleting)
  }

  /** A list request shows every present machine once, in any order. */
  predicate IsListing(s: Sys, us: seq<Uid>) {
    && (forall i :: 0 <= i < |us| ==> Present(s, us[i]))
    && (forall i, j :: 0 <= i < j < |us| ==> us[i] != us[j])
    && (forall u :: u in s.machines && Present(s, u) ==> u in us)
  }

  function Listing(s: Sys, us: seq<Uid>): (ms: seq<MachineView>)
    requires IsListing(s, us)
    ensures |ms| == |us|
  {
    seq(|us|, i requires 0 <= i < |us| => View(s.machines[us[i]].obj.value))
  }

  predicate Legal(s: Sys, e: Event) {
    match e
    case Machine(u, me) => u in s.machines && M.Legal(s.machines[u], me) && FreshStep(s, me)
    case NewMachine(u, m) => u !in s.machines && M.Init(m) && Fresh(s, m.ids)
    case Remade(u, v, m) =>
      && u !in s.machines && M.Init(m)
      && v in s.machines && s.machines[v].obj.None? && s.machines[v].proc.Idle?
      && m.inst == s.machines[v].inst && m.disk == s.machines[v].disk
    case Cluster(ce) => C.Legal(s.cluster, ce) && (ce.ListMachines? ==> ce.ms.None?)
    case List(us) => IsListing(s, us) && s.cluster.proc.Busy? && s.cluster.proc.pc.Listing?
  }

  /** `Remade` is a new object under the name of one that is gone: it gets the instance and the
      disk that one left behind. */
  predicate OnlyMachines(e: Event) {
    e.Machine? || e.NewMachine? || e.Remade?
  }

  /** The cluster's part of a step. */
  function ClusterEvent(s: Sys, e: Event): C.Event
    requires Legal(s, e) && !OnlyMachines(e)
  {
    match e
    case Cluster(ce) => ce
    case List(us) => C.ListMachines(Some(Listing(s, us)))
  }

  predicate IsFree(c: C.State) {
    c.fip.None? || c.fip.value.holder == ""
  }

  function NextTag(s: Sys, ce: C.Event, c: C.State): Tag {
    if IsFree(c) then Free
    else if C.Attaches(s.cluster, ce) && s.aim.Some? then Ours(s.aim.value)
    else if ce.OobAttach? then Others
    else s.tag
  }

  predicate Detaches(s: Sys, e: Event) {
    e.Cluster? && C.Detaches(s.cluster, e.c)
  }

  predicate AttachedByOthers(e: Event) {
    e.Cluster? && e.c.OobAttach?
  }

  function Aim(s: Sys, us: seq<Uid>): Option<Uid>
    requires IsListing(s, us)
  {
    var c := FirstCandidate(Listing(s, us));
    if c < |us| then Some(us[c]) else None
  }

  function Apply(valid: UuidCheck, s: Sys, e: Event): Sys
    requires Legal(s, e)
  {
    if e.Machine? then s.(machines := s.machines[e.u := M.Apply(s.machines[e.u], e.e)])
    else if e.NewMachine? then s.(machines := s.machines[e.u := e.m])
    else if e.Remade? then s.(machines := s.machines[e.before := Vacated(s.machines[e.before], e.m.ids)][e.u := e.m])
    else
      var ce := ClusterEvent(s, e);
      var c := C.Apply(valid, s.cluster, ce);
      s.(cluster := c,
         tag := NextTag(s, ce, c),
         aim := if e.List? then Aim(s, e.us) else s.aim,
         charged := if Detaches(s, e) && s.tag.Ours? then s.charged + {s.tag.machine} else s.charged)
  }

  predicate LegalRun(valid: UuidCheck, s: Sys, log: seq<Event>)
    decreases |log|, 0
  {
    log == [] ||
    var init := log[..|log| - 1];
    LegalRun(valid, s, init) && Legal(After(valid, s, init), log[|log| - 1])
  }

  function After(valid: UuidCheck, s: Sys, log: seq<Event>): Sys
    requires LegalRun(valid, s, log)
    decreases |log|, 1
  {
    if log == [] then s else Apply(valid, After(valid, s, log[..|log| - 1]), log[|log| - 1])
  }

  /** No machines yet; the IP may be there, and attached by others. */
  predicate Init(s: Sys) {
    && s.machines == map[] && C.Init(s.cluster)
    && s.tag == (if IsFree(s.cluster) then Free else Others) && s.aim.None? && s.charged == {}
  }

  // ---- Invariant --------------------------------------------------------------------------

  /** Machine `u` recorded `id` as its instance and was provisioned; both stay, and once the
      object is gone, so is the instance. */
  predicate Recorded(s: Sys, u: Uid, id: string) {
    && u in s.machines && id in s.machines[u].ids
    && MI.GoneWithObject(s.machines[u], id)
    && (s.machines[u].obj.Some? ==>
          var o := s.machines[u].obj.value;
          o.pid == ProviderId.NewProviderID(id) && o.provisioned == Some(true))
  }

  predicate MachinesOk(s: Sys) {
    && (forall u :: u in s.machines ==> MI.Inv(s.machines[u]) && MI.Guarded(s.machines[u]))
    && (forall u, v :: u in s.machines && v in s.machines && u != v ==> s.machines[u].ids !! s.machines[v].ids)
    && (forall u :: u in s.charged ==> u in s.machines && s.machines[u].asked)
  }

  /** The holder the controller chose is a recorded machine that was never charged before. */
  predicate TagOk(s: Sys) {
    && (s.tag.Free? <==> IsFree(s.cluster))
    && (s.tag.Ours? ==> s.tag.machine !in s.charged && Recorded(s, s.tag.machine, s.cluster.fip.value.holder))
  }

  /** The reconcile in flight aims at a recorded machine that was never charged; it detaches
      its own holder only when that machine's deletion was requested, and, while it is still
      there, only for another one. */
  predicate AimOk(s: Sys, target: string) {
    target != "" ==> s.aim.Some? && s.aim.value !in s.charged && Recorded(s, s.aim.value, target)
  }

  predicate FlightOk(s: Sys) {
    s.cluster.proc.Busy? ==>
      match s.cluster.proc.pc
      case Listing(ip) => s.tag.Ours? ==> s.cluster.fip.Some? && s.cluster.fip.value.holder == ip.holder
      case Detaching(_, t) =>
        && AimOk(s, t)
        && (s.tag.Ours? ==>
              && s.tag.machine in s.machines && s.machines[s.tag.machine].asked
              && (Present(s, s.tag.machine) ==> t != "")
              && (t != "" ==> s.aim != Some(s.tag.machine)))
      case Attaching(_, t) => AimOk(s, t) && t != "" && !s.tag.Ours?
      case _ => true
  }

  predicate Inv(s: Sys) {
    MachinesOk(s) && CR.Inv(s.cluster) && TagOk(s) && FlightOk(s)
  }

  lemma SameIdSameMachine(s: Sys, u: Uid, v: Uid, id: string)
    requires MachinesOk(s) && u in s.machines && v in s.machines
    requires id in s.machines[u].ids && id in s.machines[v].ids
    ensures u == v
  {
  }

  /** The provider ID of a present machine prints the id of an instance it had. */
  lemma PidNamesInstance(s: Sys, u: Uid, id: string)
    requires MachinesOk(s) && Present(s, u) && s.machines[u].obj.value.pid == ProviderId.NewProviderID(id)
    ensures id in s.machines[u].ids
  {
    var x :| x in s.machines[u].ids && s.machines[u].obj.value.pid == ProviderId.NewProviderID(x) by {
      ProviderId.PrintIsInjective(id, "");
    }
    ProviderId.PrintIsInjective(x, id);
  }

  // ---- Steps of machines ------------------------------------------------------------------

  /** What a step that touches only machines has to keep. */
  ghost predicate RecordsKept(s: Sys, t: Sys) {
    && (forall u, id :: Recorded(s, u, id) ==> Recorded(t, u, id))
    && (forall u :: u in s.machines ==>
          u in t.machines && (s.machines[u].asked ==> t.machines[u].asked) && (Present(t, u) ==> Present(s, u)))
  }

  lemma OnlyMachinesKeep(s: Sys, t: Sys)
    requires Inv(s) && MachinesOk(t) && RecordsKept(s, t) && t == s.(machines := t.machines)
    ensures Inv(t)
  {
  }

  lemma MachineMoves(valid: UuidCheck, s: Sys, e: Event)
    requires Inv(s) && Legal(s, e) && e.Machine?
    ensures Inv(Apply(valid, s, e))
  {
    MachineStepOk(valid, s, e);
    RecordStays(valid, s, e);
    OnlyMachinesKeep(s, Apply(valid, s, e));
  }

  lemma MachineStepOk(valid: UuidCheck, s: Sys, e: Event)
    requires MachinesOk(s) && Legal(s, e) && e.Machine?
    ensures MachinesOk(Apply(valid, s, e))
  {
    MI.InvStep(s.machines[e.u], e.e);
    MI.GuardedStep(s.machines[e.u], e.e);
    MachineGainsFreshIds(s.machines[e.u], e.e);
  }

  lemma RecordStays(valid: UuidCheck, s: Sys, e: Event)
    requires MachinesOk(s) && Legal(s, e) && e.Machine?
    ensures RecordsKept(s, Apply(valid, s, e))
  {
    var t := Apply(valid, s, e);
    MI.InvStep(s.machines[e.u], e.e);
    forall u, id | Recorded(s, u, id)
      ensures Recorded(t, u, id)
    {
      if u == e.u {
        MI.RecordOutlivesInstance(s.machines[u], e.e, id);
      }
    }
  }

  lemma MachineGainsFreshIds(m: M.State, e: M.Event)
    requires M.Legal(m, e)
    ensures M.Apply(m, e).ids == m.ids || ((e.InstanceCreate? || e.OobInstance?) && M.Apply(m, e).ids == m.ids + {e.id})
  {
  }

  lemma MachineAppears(valid: UuidCheck, s: Sys, e: Event)
    requires Inv(s) && Legal(s, e) && e.NewMachine?
    ensures Inv(Apply(valid, s, e))
  {
    AppearanceKeepsMachines(valid, s, e);
    var t := Apply(valid, s, e);
    assert RecordsKept(s, t);
    OnlyMachinesKeep(s, t);
  }

  lemma AppearanceKeepsMachines(valid: UuidCheck, s: Sys, e: Event)
    requires MachinesOk(s) && Legal(s, e) && e.NewMachine?
    ensures MachinesOk(Apply(valid, s, e))
  {
    MI.InitInv(e.m);
  }

  /** What passes to the new object was never recorded: a finalizer that is on record lets an
      object go only after its instance. */
  lemma MachineIsRemade(valid: UuidCheck, s: Sys, e: Event)
    requires Inv(s) && Legal(s, e) && e.Remade?
    ensures Inv(Apply(valid, s, e))
  {
    RemadeMachinesOk(valid, s, e);
    RemadeKeepsRecords(valid, s, e);
    OnlyMachinesKeep(s, Apply(valid, s, e));
  }

  lemma RemadeMachinesOk(valid: UuidCheck, s: Sys, e: Event)
    requires MachinesOk(s) && Legal(s, e) && e.Remade?
    ensures MachinesOk(Apply(valid, s, e))
  {
    MI.InitInv(e.m);
    var (t, gone) := (Apply(valid, s, e), s.machines[e.before]);
    VacatedOk(gone, e.m.ids);
    assert e.m.ids <= gone.ids;
    forall v | v in t.machines
      ensures MI.Inv(t.machines[v]) && MI.Guarded(t.machines[v])
    {
      assert v != e.u && v != e.before ==> t.machines[v] == s.machines[v];
    }
    RemadeIdsDisjoint(valid, s, e);
  }

  lemma RemadeIdsDisjoint(valid: UuidCheck, s: Sys, e: Event)
    requires MachinesOk(s) && Legal(s, e) && e.Remade? && e.m.ids <= s.machines[e.before].ids
    ensures var t := Apply(valid, s, e);
            forall u, v :: u in t.machines && v in t.machines && u != v ==> t.machines[u].ids !! t.machines[v].ids
  {
  }

  lemma VacatedOk(m: M.State, ids: set<string>)
    requires MI.Inv(m) && m.obj.None? && m.proc.Idle?
    ensures MI.Inv(Vacated(m, ids)) && MI.Guarded(Vacated(m, ids))
  {
  }

  lemma RemadeKeepsRecords(valid: UuidCheck, s: Sys, e: Event)
    requires MachinesOk(s) && Legal(s, e) && e.Remade?
    ensures RecordsKept(s, Apply(valid, s, e))
  {
    assert forall id :: Recorded(s, e.before, id) ==> id !in e.m.ids;
  }

  // ---- Steps of the cluster ---------------------------------------------------------------

  /** What the list request settles about the target. */
  lemma TargetIsRecorded(valid: UuidCheck, s: Sys, us: seq<Uid>, t: string)
    requires MachinesOk(s) && IsListing(s, us)
    requires TargetId(valid, Listing(s, us)) == Success(t) && t != ""
    ensures var a := Aim(s, us); a.Some? && a.value !in s.charged && Recorded(s, a.value, t)
    ensures var a := Aim(s, us); Present(s, a.value) && !s.machines[a.value].obj.value.deleting
  {
    var ms := Listing(s, us);
    var c := FirstCandidate(ms);
    ProviderId.ParseInvertsPrint(valid, ms[c].pid, t);
    PidNamesInstance(s, us[c], t);
  }

  /** If the decision moves the IP off the machine the controller had put it on, the deletion
      of that machine was requested before. */
  lemma LeftMachineWasAsked(valid: UuidCheck, s: Sys, us: seq<Uid>, holder: string, v: Uid)
    requires MachinesOk(s) && IsListing(s, us) && holder != "" && Recorded(s, v, holder)
    requires Decide(valid, Listing(s, us), holder).Move?
    ensures s.machines[v].asked
    ensures Present(s, v) ==> Decide(valid, Listing(s, us), holder) != Move("")
  {
    var ms := Listing(s, us);
    if Present(s, v) {
      var k :| 0 <= k < |us| && us[k] == v;
      assert ms[k].pid == ProviderId.NewProviderID(holder);
      ProviderId.ParseInvertsPrint(valid, ms[k].pid, holder);
      ProviderId.PrintIsInjective(holder, "");
      assert Unreadable(valid, ms[k]) || Matches(valid, ms[k], holder);
      var end := ScanEnd(valid, ms, holder);
      ProviderId.ParseInvertsPrint(valid, ms[end].pid, holder);
      PidNamesInstance(s, us[end], holder);
      SameIdSameMachine(s, us[end], v, holder);
    }
  }

  lemma ListKeeps(valid: UuidCheck, s: Sys, e: Event)
    requires Inv(s) && Legal(s, e) && e.List?
    ensures Inv(Apply(valid, s, e))
  {
    CR.InvStep(valid, s.cluster, ClusterEvent(s, e));
    ListEffect(valid, s, e.us);
    ListKeepsFlight(valid, s, e.us);
  }

  lemma ListKeepsFlight(valid: UuidCheck, s: Sys, us: seq<Uid>)
    requires Inv(s) && Legal(s, List(us))
    ensures FlightOk(Apply(valid, s, List(us)))
  {
    ListDecides(valid, s, us);
    ListEffect(valid, s, us);
    ChoiceIsOk(s, Aim(s, us), Decide(valid, Listing(s, us), s.cluster.proc.pc.ip.holder));
  }

  /** A choice sets out to do only what it may. */
  predicate ChoiceOk(s: Sys, aim: Option<Uid>, choice: Choice) {
    choice.Move? ==>
      && (choice.target != "" ==> aim.Some? && aim.value !in s.charged && Recorded(s, aim.value, choice.target))
      && (s.tag.Ours? ==>
            && s.cluster.fip.Some? && s.cluster.fip.value.holder != ""
            && s.tag.machine in s.machines && s.machines[s.tag.machine].asked
            && (Present(s, s.tag.machine) ==> choice.target != "")
            && (choice.target != "" ==> aim != Some(s.tag.machine)))
  }

  lemma ChoiceIsOk(s: Sys, aim: Option<Uid>, choice: Choice)
    requires TagOk(s) && FlightOk(s) && s.cluster.proc.Busy? && s.cluster.proc.pc.Listing? && ChoiceOk(s, aim, choice)
    ensures var p := s.cluster.proc;
            FlightOk(s.(cluster := s.cluster.(proc := C.OnChoice(p.orig, p.cur, p.pc.ip, choice)), aim := aim))
  {
    var p := s.cluster.proc;
    var t := s.(cluster := s.cluster.(proc := C.OnChoice(p.orig, p.cur, p.pc.ip, choice)), aim := aim);
    assert forall u, id :: Recorded(s, u, id) <==> Recorded(t, u, id);
  }

  /** A list request changes nothing but the reconcile in flight. */
  lemma ListEffect(valid: UuidCheck, s: Sys, us: seq<Uid>)
    requires Inv(s) && Legal(s, List(us))
    ensures var p := s.cluster.proc;
            var next := C.OnChoice(p.orig, p.cur, p.pc.ip, Decide(valid, Listing(s, us), p.pc.ip.holder));
            Apply(valid, s, List(us)) == s.(cluster := s.cluster.(proc := next), aim := Aim(s, us))
  {
  }

  /** What holds of the decision a list request leads to. */
  lemma ListDecides(valid: UuidCheck, s: Sys, us: seq<Uid>)
    requires Inv(s) && Legal(s, List(us))
    ensures ChoiceOk(s, Aim(s, us), Decide(valid, Listing(s, us), s.cluster.proc.pc.ip.holder))
  {
    var holder := s.cluster.proc.pc.ip.holder;
    var choice := Decide(valid, Listing(s, us), holder);
    if choice.Move? {
      if choice.target != "" {
        TargetIsRecorded(valid, s, us, choice.target);
      }
      if s.tag.Ours? {
        LeftMachineWasAsked(valid, s, us, holder, s.tag.machine);
      }
    }
  }

  lemma EnvironmentKeeps(valid: UuidCheck, s: Sys, e: Event)
    requires Inv(s) && Legal(s, e) && e.Cluster? && C.IsEnvironment(e.c)
    ensures Inv(Apply(valid, s, e))
  {
    CR.InvStep(valid, s.cluster, e.c);
  }

  lemma DetachKeeps(valid: UuidCheck, s: Sys, e: Event)
    requires Inv(s) && Legal(s, e) && e.Cluster? && e.c.IpDetach?
    ensures Inv(Apply(valid, s, e))
  {
    CR.InvStep(valid, s.cluster, e.c);
    DetachKeepsFlight(valid, s, e);
  }

  lemma DetachKeepsFlight(valid: UuidCheck, s: Sys, e: Event)
    requires Inv(s) && Legal(s, e) && e.Cluster? && e.c.IpDetach?
    ensures FlightOk(Apply(valid, s, e))
  {
  }

  lemma AttachKeeps(valid: UuidCheck, s: Sys, e: Event)
    requires Inv(s) && Legal(s, e) && e.Cluster? && e.c.IpAttach?
    ensures Inv(Apply(valid, s, e))
  {
    CR.InvStep(valid, s.cluster, e.c);
    AttachKeepsFlight(valid, s, e);
  }

  lemma AttachKeepsFlight(valid: UuidCheck, s: Sys, e: Event)
    requires Inv(s) && Legal(s, e) && e.Cluster? && e.c.IpAttach?
    ensures FlightOk(Apply(valid, s, e))
  {
  }

  lemma IpFoundKeeps(valid: UuidCheck, s: Sys, e: Event)
    requires Inv(s) && Legal(s, e) && e.Cluster? && (e.c.IpView? || e.c.IpCreate?)
    ensures Inv(Apply(valid, s, e))
  {
    CR.InvStep(valid, s.cluster, e.c);
    IpFoundKeepsFlight(valid, s, e);
  }

  lemma IpFoundKeepsFlight(valid: UuidCheck, s: Sys, e: Event)
    requires Inv(s) && Legal(s, e) && e.Cluster? && (e.c.IpView? || e.c.IpCreate?)
    ensures FlightOk(Apply(valid, s, e))
  {
  }

  lemma IpDeleteKeeps(valid: UuidCheck, s: Sys, e: Event)
    requires Inv(s) && Legal(s, e) && e.Cluster? && (e.c.IpDelete? || e.c.ListMachines?)
    ensures Inv(Apply(valid, s, e))
  {
    CR.InvStep(valid, s.cluster, e.c);
    IpDeleteKeepsFlight(valid, s, e);
  }

  lemma IpDeleteKeepsFlight(valid: UuidCheck, s: Sys, e: Event)
    requires Inv(s) && Legal(s, e) && e.Cluster? && (e.c.IpDelete? || e.c.ListMachines?)
    ensures FlightOk(Apply(valid, s, e))
  {
  }

  lemma BoundaryKeeps(valid: UuidCheck, s: Sys, e: Event)
    requires Inv(s) && Legal(s, e) && e.Cluster? && (e.c.Enter? || e.c.Patch? || e.c.Crash?)
    ensures Inv(Apply(valid, s, e))
  {
    CR.InvStep(valid, s.cluster, e.c);
    BoundaryKeepsFlight(valid, s, e);
  }

  lemma BoundaryKeepsFlight(valid: UuidCheck, s: Sys, e: Event)
    requires Inv(s) && Legal(s, e) && e.Cluster? && (e.c.Enter? || e.c.Patch? || e.c.Crash?)
    ensures FlightOk(Apply(valid, s, e))
  {
  }

  lemma InvStep(valid: UuidCheck, s: Sys, e: Event)
    requires Inv(s) && Legal(s, e)
    ensures Inv(Apply(valid, s, e))
  {
    if e.Machine? {
      MachineMoves(valid, s, e);
    } else if e.NewMachine? {
      MachineAppears(valid, s, e);
    } else if e.Remade? {
      MachineIsRemade(valid, s, e);
    } else if e.List? {
      ListKeeps(valid, s, e);
    } else if C.IsEnvironment(e.c) {
      EnvironmentKeeps(valid, s, e);
    } else if e.c.IpDetach? {
      DetachKeeps(valid, s, e);
    } else if e.c.IpAttach? {
      AttachKeeps(valid, s, e);
    } else if e.c.IpView? || e.c.IpCreate? {
      IpFoundKeeps(valid, s, e);
    } else if e.c.IpDelete? || e.c.ListMachines? {
      IpDeleteKeeps(valid, s, e);
    } else {
      BoundaryKeeps(valid, s, e);
    }
  }

  // ---- No flapping ------------------------------------------------------------------------

  /** How often a reconcile really detached the IP. */
  function Detachments(valid: UuidCheck, s: Sys, log: seq<Event>): nat
    requires LegalRun(valid, s, log)
  {
    if log == [] then 0
    else
      var init := log[..|log| - 1];
      Detachments(valid, s, init) + (if Detaches(After(valid, s, init), log[|log| - 1]) then 1 else 0)
  }

  function AttachmentsByOthers(log: seq<Event>): nat {
    if log == [] then 0
    else AttachmentsByOthers(log[..|log| - 1]) + (if AttachedByOthers(log[|log| - 1]) then 1 else 0)
  }

  /** The machines whose deletion was ever requested. */
  function Asked(s: Sys): set<Uid> {
    set u | u in s.machines && s.machines[u].asked
  }

  function Pending(s: Sys): nat {
    if s.tag.Others? then 1 else 0
  }

  /** Every detachment is paid for: by a machine that is charged for the first time, or by an
      attachment others made. */
  lemma DetachmentIsPaid(valid: UuidCheck, s: Sys, e: Event)
    requires Inv(s) && Legal(s, e)
    ensures var t := Apply(valid, s, e);
            (if Detaches(s, e) then 1 else 0) + Pending(t) + |s.charged| <=
            Pending(s) + |t.charged| + (if AttachedByOthers(e) then 1 else 0)
  {
    if e.Cluster? && e.c.IpDetach? {
      DetachIsPaid(valid, s, e);
    } else {
      OtherStepsAreFree(valid, s, e);
    }
  }

  lemma DetachIsPaid(valid: UuidCheck, s: Sys, e: Event)
    requires Inv(s) && Legal(s, e) && e.Cluster? && e.c.IpDetach?
    ensures var t := Apply(valid, s, e);
            (if Detaches(s, e) then 1 else 0) + Pending(t) + |s.charged| <=
            Pending(s) + |t.charged| + (if AttachedByOthers(e) then 1 else 0)
  {
  }

  lemma OtherStepsAreFree(valid: UuidCheck, s: Sys, e: Event)
    requires Inv(s) && Legal(s, e) && !(e.Cluster? && e.c.IpDetach?)
    ensures var t := Apply(valid, s, e);
            (if Detaches(s, e) then 1 else 0) + Pending(t) + |s.charged| <=
            Pending(s) + |t.charged| + (if AttachedByOthers(e) then 1 else 0)
  {
  }

  lemma {:induction false} DetachmentsArePaid(valid: UuidCheck, s: Sys, log: seq<Event>)
    requires Init(s) && LegalRun(valid, s, log)
    ensures var t := After(valid, s, log);
            && Inv(t)
            && Detachments(valid, s, log) + Pending(t) <= Pending(s) + |t.charged| + AttachmentsByOthers(log)
  {
    if log != [] {
      var init, last := log[..|log| - 1], log[|log| - 1];
      DetachmentsArePaid(valid, s, init);
      InvStep(valid, After(valid, s, init), last);
      DetachmentIsPaid(valid, After(valid, s, init), last);
    }
  }

  /** No flapping: in any interleaving of both controllers with users, cloud and failures, the
      IP is detached at most once for every machine whose deletion was requested and once for
      every attachment made by others, one before the start included. */
  lemma NoFlapping(valid: UuidCheck, s: Sys, log: seq<Event>)
    requires Init(s) && LegalRun(valid, s, log)
    ensures Detachments(valid, s, log) <= |Asked(After(valid, s, log))| + AttachmentsByOthers(log) + Pending(s)
  {
    DetachmentsArePaid(valid, s, log);
    var t := After(valid, s, log);
    assert t.charged <= Asked(t);
    SubsetSize(t.charged, Asked(t));
  }

  lemma SubsetSize(a: set<Uid>, b: set<Uid>)
    requires a <= b
    ensures |a| <= |b|
  {
    if a != {} {
      var x :| x in a;
      SubsetSize(a - {x}, b - {x});
    }
  }

  // ---- What the two controllers owe each other --------------------------------------------

  lemma {:induction false} InvFrom(valid: UuidCheck, s: Sys, log: seq<Event>)
    requires (Init(s) || Inv(s)) && LegalRun(valid, s, log)
    ensures Inv(After(valid, s, log))
  {
    if log != [] {
      InvFrom(valid, s, log[..|log| - 1]);
      InvStep(valid, After(valid, s, log[..|log| - 1]), log[|log| - 1]);
    }
  }

  /** No list ever shows two machines with the same instance, so an attachment settles. */
  lemma ListedIdsAreDistinct(valid: UuidCheck, s: Sys, log: seq<Event>, us: seq<Uid>)
    requires Init(s) && LegalRun(valid, s, log) && IsListing(After(valid, s, log), us)
    ensures DistinctIds(valid, Listing(After(valid, s, log), us))
    ensures !Shadowed(valid, Listing(After(valid, s, log), us))
  {
    InvFrom(valid, s, log);
    ListingIsDistinct(valid, After(valid, s, log), us);
  }

  lemma ListingIsDistinct(valid: UuidCheck, s: Sys, us: seq<Uid>)
    requires MachinesOk(s) && IsListing(s, us)
    ensures DistinctIds(valid, Listing(s, us)) && !Shadowed(valid, Listing(s, us))
  {
    var ms := Listing(s, us);
    forall i, j, id | 0 <= i < |ms| && 0 <= j < |ms| && Matches(valid, ms[i], id) && Matches(valid, ms[j], id)
      ensures i == j
    {
      ProviderId.ParseInvertsPrint(valid, ms[i].pid, id);
      ProviderId.ParseInvertsPrint(valid, ms[j].pid, id);
      PidNamesInstance(s, us[i], id);
      PidNamesInstance(s, us[j], id);
      SameIdSameMachine(s, us[i], us[j], id);
    }
    DistinctIsUnshadowed(valid, ms);
  }

  lemma DistinctIsUnshadowed(valid: UuidCheck, ms: seq<MachineView>)
    requires DistinctIds(valid, ms)
    ensures !Shadowed(valid, ms)
  {
  }

  /** The holder scan does not test `provisioned`, and need not: a listed machine that holds the
      IP is provisioned, unless it was others who attached the IP to it. */
  lemma HolderIsProvisioned(valid: UuidCheck, s: Sys, log: seq<Event>, u: Uid)
    requires Init(s) && LegalRun(valid, s, log)
    requires var t := After(valid, s, log);
             && Present(t, u) && t.cluster.fip.Some? && t.cluster.fip.value.holder != "" && !t.tag.Others?
             && t.machines[u].obj.value.pid == ProviderId.NewProviderID(t.cluster.fip.value.holder)
    ensures After(valid, s, log).machines[u].obj.value.provisioned == Some(true)
  {
    InvFrom(valid, s, log);
    var t := After(valid, s, log);
    PidNamesInstance(t, u, t.cluster.fip.value.holder);
    SameIdSameMachine(t, u, t.tag.machine, t.cluster.fip.value.holder);
  }

  /** Whenever, in any run, the IP really is detached from a machine the controller put it on,
      and that machine is still there, draining or not, there is another one to attach it to. */
  lemma OwnHolderIsNotAbandoned(valid: UuidCheck, s: Sys, log: seq<Event>, e: Event)
    requires Init(s) && LegalRun(valid, s, log) && Legal(After(valid, s, log), e)
    requires var t := After(valid, s, log); Detaches(t, e) && t.tag.Ours? && Present(t, t.tag.machine)
    ensures var p := After(valid, s, log).cluster.proc; p.Busy? && p.pc.Detaching? && p.pc.target != ""
  {
    InvFrom(valid, s, log);
  }

  // ---- Recovery in the combined system ----------------------------------------------------

  /** What the cluster sees of a run: its own steps, and lists of what the machines show. */
  function ClusterLog(valid: UuidCheck, s: Sys, log: seq<Event>): seq<C.Event>
    requires LegalRun(valid, s, log)
  {
    if log == [] then []
    else
      var init, last := log[..|log| - 1], log[|log| - 1];
      ClusterLog(valid, s, init) + (if OnlyMachines(last) then [] else [ClusterEvent(After(valid, s, init), last)])
  }

  /** Seen from the cluster, the combined system is the cluster's own. */
  lemma {:induction false} ClusterLogIsRun(valid: UuidCheck, s: Sys, log: seq<Event>)
    requires LegalRun(valid, s, log)
    ensures C.LegalRun(valid, s.cluster, ClusterLog(valid, s, log))
    ensures C.After(valid, s.cluster, ClusterLog(valid, s, log)) == After(valid, s, log).cluster
  {
    if log != [] {
      var init, last := log[..|log| - 1], log[|log| - 1];
      ClusterLogIsRun(valid, s, init);
      var t := After(valid, s, init);
      if OnlyMachines(last) {
        assert ClusterLog(valid, s, log) == ClusterLog(valid, s, init);
      } else {
        assert C.Legal(t.cluster, ClusterEvent(t, last));
        C.Snoc(valid, s.cluster, ClusterLog(valid, s, init), ClusterEvent(t, last));
      }
    }
  }

  /** The UUID library accepts the ids of all instances there have been. */
  predicate RealIds(valid: UuidCheck, s: Sys) {
    forall u :: u in s.machines ==> forall id :: id in s.machines[u].ids ==> valid(id)
  }

  lemma IdsAreKept(valid: UuidCheck, s: Sys, e: Event)
    requires Inv(s) && Legal(s, e) && RealIds(valid, Apply(valid, s, e))
    ensures RealIds(valid, s)
  {
    var t := Apply(valid, s, e);
    if e.Machine? {
      MachineGainsFreshIds(s.machines[e.u], e.e);
    }
    forall u, id | u in s.machines && id in s.machines[u].ids
      ensures valid(id)
    {
      assert u in t.machines && (id in t.machines[u].ids || (e.Remade? && id in t.machines[e.u].ids));
    }
  }

  /** Then every provider ID a list shows can be read. */
  lemma ListingIsReadable(valid: UuidCheck, s: Sys, us: seq<Uid>)
    requires MachinesOk(s) && IsListing(s, us) && RealIds(valid, s)
    ensures Readable(valid, Listing(s, us))
  {
    var ms := Listing(s, us);
    forall k | 0 <= k < |ms|
      ensures !Unreadable(valid, ms[k])
    {
      var m := s.machines[us[k]];
      if ms[k].pid != "" {
        var id :| id in m.ids && ms[k].pid == ProviderId.NewProviderID(id);
        ProviderId.ParseInvertsPrint(valid, ms[k].pid, id);
      }
    }
  }

  /** No list a run shows has a shadowed target; and each is readable, if the ids are real. */
  lemma {:induction false} ListedIsSound(valid: UuidCheck, s: Sys, log: seq<Event>)
    requires Inv(s) && LegalRun(valid, s, log)
    ensures Inv(After(valid, s, log))
    ensures RealIds(valid, After(valid, s, log)) ==> RealIds(valid, s)
    ensures var listed := CR.Listed(ClusterLog(valid, s, log));
            listed.Some? ==>
              && !Shadowed(valid, listed.value)
              && (RealIds(valid, After(valid, s, log)) ==> Readable(valid, listed.value))
  {
    if log != [] {
      var init, last := log[..|log| - 1], log[|log| - 1];
      var t := After(valid, s, init);
      ListedIsSound(valid, s, init);
      InvStep(valid, t, last);
      if RealIds(valid, After(valid, s, log)) {
        IdsAreKept(valid, t, last);
      }
      ListedStep(valid, s, log);
      if last.List? {
        ListingIsDistinct(valid, t, last.us);
        if RealIds(valid, t) {
          ListingIsReadable(valid, t, last.us);
        }
      }
    }
  }

  /** Only a list request changes what was listed last. */
  lemma ListedStep(valid: UuidCheck, s: Sys, log: seq<Event>)
    requires LegalRun(valid, s, log) && log != []
    ensures var init, last := log[..|log| - 1], log[|log| - 1];
            CR.Listed(ClusterLog(valid, s, log)) ==
            if last.List? then Some(Listing(After(valid, s, init), last.us)) else CR.Listed(ClusterLog(valid, s, init))
  {
    var init, last := log[..|log| - 1], log[|log| - 1];
    var before := ClusterLog(valid, s, init);
    if OnlyMachines(last) {
      assert before + [] == before;
    } else {
      assert (before + [ClusterEvent(After(valid, s, init), last)])[..|before|] == before;
    }
  }

  /** The rest of one reconcile of the cluster, in which machines, their reconciles, users and
      the cloud go on as they like, but nobody else moves the IP. */
  predicate OneReconcile(log: seq<Event>) {
    forall i :: 0 <= i < |log| && log[i].Cluster? ==>
      var e := log[i].c;
      !e.Enter? && !e.Patch? && !e.Crash? && !CR.MovedByOthers(e)
  }

  predicate CallsAnswered(log: seq<Event>) {
    forall i :: 0 <= i < |log| && log[i].Cluster? ==> CR.Answered(log[i].c)
  }

  lemma {:induction false} ClusterLogIsReconcile(valid: UuidCheck, s: Sys, log: seq<Event>)
    requires LegalRun(valid, s, log) && OneReconcile(log)
    ensures CR.WithinReconcile(ClusterLog(valid, s, log))
    ensures CallsAnswered(log) ==> CR.AllAnswered(ClusterLog(valid, s, log))
  {
    if log != [] {
      var init := log[..|log| - 1];
      assert forall i :: 0 <= i < |init| ==> init[i] == log[i];
      ClusterLogIsReconcile(valid, s, init);
    }
  }

  /** A reconcile that is at its end in `u` ended well: the IP, once on `h`, is where the decision
      on the list wants it, on a machine if there is a candidate, and not taken off a listed
      machine; and the condition says so. */
  predicate PlacedWell(valid: UuidCheck, h: string, u: C.State, listed: Option<seq<MachineView>>) {
    u.proc.Busy? && (u.proc.pc.End? ==>
      && u.proc.pc == C.End(Finished) && listed.Some?
      && CR.HolderOf(u) == FinalHolder(Decide(valid, listed.value, h), h)
      && (HasCandidate(listed.value) ==> CR.HolderOf(u) != "")
      && (h != "" && (exists k :: 0 <= k < |listed.value| && Matches(valid, listed.value[k], h)) ==>
          CR.HolderOf(u) != "")
      && (u.proc.cur.attached.True? <==> CR.HolderOf(u) != ""))
  }

  ghost predicate Reachable(valid: UuidCheck, s: Sys) {
    exists start, log :: Init(start) && LegalRun(valid, start, log) && s == After(valid, start, log)
  }

  lemma ReachableInv(valid: UuidCheck, s: Sys)
    requires Reachable(valid, s)
    ensures Inv(s)
  {
    var start, log :| Init(start) && LegalRun(valid, start, log) && s == After(valid, start, log);
    InvFrom(valid, start, log);
  }

  function StartCluster(valid: UuidCheck, s: Sys): Sys
    requires CR.StartsReconcile(s.cluster)
  {
    Apply(valid, s, Cluster(C.Enter(true, false)))
  }

  /** Recovery: in any reachable state of the combined system, whoever holds the IP, and however
      the machines move meanwhile, a reconcile of the cluster whose calls are answered and that
      comes to its end does so without an error, with the IP where the decision wants it: on a
      machine if the list showed a candidate, and not taken off a listed one. */
  lemma SystemRecovers(valid: UuidCheck, s: Sys, log: seq<Event>)
    requires Reachable(valid, s) && SaneUuids(valid) && CR.StartsReconcile(s.cluster)
    requires LegalRun(valid, StartCluster(valid, s), log) && OneReconcile(log) && CallsAnswered(log)
    requires RealIds(valid, After(valid, StartCluster(valid, s), log))
    ensures var t := StartCluster(valid, s);
            PlacedWell(valid, CR.HolderOf(s.cluster), After(valid, t, log).cluster,
                       CR.Listed(ClusterLog(valid, t, log)))
  {
    var t := StartCluster(valid, s);
    ReachableInv(valid, s);
    InvStep(valid, s, Cluster(C.Enter(true, false)));
    ListedIsSound(valid, t, log);
    ClusterLogIsRun(valid, t, log);
    ClusterLogIsReconcile(valid, t, log);
    PlacementFollows(valid, s.cluster, ClusterLog(valid, t, log));
  }

  /** For one cluster: with a readable list the reconcile ends well. */
  lemma PlacementFollows(valid: UuidCheck, c: C.State, seen: seq<C.Event>)
    requires SaneUuids(valid) && CR.StartsReconcile(c)
    requires C.LegalRun(valid, CR.Started(c), seen) && CR.WithinReconcile(seen) && CR.AllAnswered(seen)
    requires CR.Listed(seen).Some? ==> Readable(valid, CR.Listed(seen).value)
    ensures PlacedWell(valid, CR.HolderOf(c), C.After(valid, CR.Started(c), seen), CR.Listed(seen))
  {
    CR.ReconcilePlacesIp(valid, c, seen);
    var (h, listed) := (CR.HolderOf(c), CR.Listed(seen));
    if listed.Some? {
      BlockedIff(valid, listed.value, h);
      if HasCandidate(listed.value) && Decide(valid, listed.value, h) != BadProviderId {
        CandidateMeansAttached(valid, listed.value, h);
      }
      if h != "" && (exists k :: 0 <= k < |listed.value| && Matches(valid, listed.value[k], h)) {
        NeverAbandoned(valid, listed.value, h);
      }
    }
  }

  /** Convergence: where an earlier decision on the same list put the IP, it stays, without a
      detach or attach call, whatever fails. */
  lemma SystemSettles(valid: UuidCheck, s: Sys, log: seq<Event>, holder: string)
    requires Reachable(valid, s) && SaneUuids(valid) && CR.StartsReconcile(s.cluster)
    requires LegalRun(valid, StartCluster(valid, s), log) && OneReconcile(log)
    ensures var seen := ClusterLog(valid, StartCluster(valid, s), log);
            var listed := CR.Listed(seen);
            listed.Some? && CR.Shows(seen, listed.value)
            && CR.HolderOf(s.cluster) == FinalHolder(Decide(valid, listed.value, holder), holder) ==>
              forall i :: 0 <= i < |seen| ==> !seen[i].IpDetach? && !seen[i].IpAttach?
  {
    var t := StartCluster(valid, s);
    var seen := ClusterLog(valid, t, log);
    ReachableInv(valid, s);
    InvStep(valid, s, Cluster(C.Enter(true, false)));
    ListedIsSound(valid, t, log);
    ClusterLogIsRun(valid, t, log);
    ClusterLogIsReconcile(valid, t, log);
    var listed := CR.Listed(seen);
    if listed.Some? && CR.Shows(seen, listed.value)
       && CR.HolderOf(s.cluster) == FinalHolder(Decide(valid, listed.value, holder), holder) {
      CR.PlacedIpStays(valid, s.cluster, listed.value, holder, seen);
    }
  }
}
