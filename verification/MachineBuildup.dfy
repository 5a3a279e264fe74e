/** Building up comes to an end: a bound on the reconciles it takes until a live machine is
    running and on record, and a reconcile that always gets it further. */
module MachineBuildup {
  import opened Basics
  import opened Cloud
  import opened MachineModel
  import opened MachineInvariants
  import MachineRuns
  import ProviderId

  /** How far an instance is from running. */
  function BuildRank(inst: Option<Instance>): nat {
    match inst
    case None => 3
    case Some(i) => if i.run.Stopped? then 2 else if i.run.Running? then 0 else 1
  }

  /** Nobody deletes the machine or moves its instance away from running, and a started instance
      is not stopped. */
  predicate NoSetback(s: State, e: Event)
    requires Legal(s, e)
  {
    && !e.UserDelete?
    && (IsEnvironment(e) ==> BuildRank(Apply(s, e).inst) <= BuildRank(s.inst))
    && (e.InstanceStart? ==> !e.run.Stopped?)
  }

  predicate NoSetbacks(s: State, log: seq<Event>)
    requires LegalRun(s, log)
  {
    log == [] ||
    var init := log[..|log| - 1];
    NoSetbacks(s, init) && NoSetback(After(s, init), log[|log| - 1])
  }

  // ---- What a reconcile that builds knows -------------------------------------------------

  predicate IsRunning(s: State) {
    s.inst.Some? && s.inst.value.run.Running?
  }

  /** All there is to say of a running instance, but for its addresses. */
  predicate Recorded(o: Obj) {
    o.fin && o.pid != "" && o.provisioned == Some(true) && o.ready == True(InstanceReason(Some(Running)))
  }

  predicate Live(s: State) {
    s.proc.Idle? && s.obj.Some? && !s.obj.value.deleting
  }

  predicate PcFits(s: State, orig: Obj, cur: Obj, pc: Pc) {
    match pc
    case Begin => cur == orig.(fin := true)
    case ReadyToCreate => true
    case Adopting => true
    case Starting(i) => i.run.Stopped? && cur.pid != ""
    case ListingNics(_) => IsRunning(s) && Recorded(cur)
    case ListingIps(_, _) => IsRunning(s) && Recorded(cur)
    case End(Finished) => cur.ready.True? ==> IsRunning(s) && Recorded(cur)
    case End(RequeueAfter10s) => cur.ready.False?
    case End(Errored) => true
    case _ => false
  }

  /** A live machine, with or without a reconcile in flight. */
  predicate Building(s: State) {
    && Inv(s) && s.obj.Some? && !s.obj.value.deleting
    && (s.proc.Busy? ==> !s.proc.orig.deleting && PcFits(s, s.proc.orig, s.proc.cur, s.proc.pc))
  }

  lemma BuildingEnvironment(s: State, e: Event)
    requires Building(s) && Legal(s, e) && NoSetback(s, e) && Inv(Apply(s, e)) && IsEnvironment(e)
    ensures Building(Apply(s, e))
  {
  }

  lemma BuildingBoundary(s: State, e: Event)
    requires Building(s) && Legal(s, e) && Inv(Apply(s, e)) && (e.Enter? || e.Patch? || e.Crash?)
    ensures Building(Apply(s, e))
  {
  }

  lemma BuildingView(s: State, e: Event)
    requires Building(s) && Legal(s, e) && Inv(Apply(s, e)) && e.InstanceView?
    ensures Building(Apply(s, e))
  {
    if s.inst.Some? {
      ProviderId.PrintIsInjective(s.inst.value.id, "");
    }
  }

  lemma BuildingCreate(s: State, e: Event)
    requires Building(s) && Legal(s, e) && Inv(Apply(s, e)) && e.InstanceCreate?
    ensures Building(Apply(s, e))
  {
    ProviderId.PrintIsInjective(e.id, "");
  }

  lemma BuildingCall(s: State, e: Event)
    requires Building(s) && Legal(s, e) && Inv(Apply(s, e)) && IsCall(e) && !e.InstanceView? && !e.InstanceCreate?
    ensures Building(Apply(s, e))
  {
  }

  lemma BuildingStep(s: State, e: Event)
    requires Building(s) && Legal(s, e) && NoSetback(s, e)
    ensures Building(Apply(s, e))
  {
    InvStep(s, e);
    if IsEnvironment(e) {
      BuildingEnvironment(s, e);
    } else if !IsCall(e) {
      BuildingBoundary(s, e);
    } else if e.InstanceView? {
      BuildingView(s, e);
    } else if e.InstanceCreate? {
      BuildingCreate(s, e);
    } else {
      BuildingCall(s, e);
    }
  }

  // ---- A bound on reconciles, whatever fails ----------------------------------------------

  /** The last or current reconcile of the log created the instance or had it started. */
  predicate Advanced(s: State, log: seq<Event>)
    requires LegalRun(s, log)
  {
    log != [] &&
    var init := log[..|log| - 1];
    AdvancedAfter(After(s, init), Advanced(s, init), log[|log| - 1])
  }

  predicate AdvancedAfter(s: State, before: bool, e: Event) {
    if e.Enter? || e.Patch? || e.Crash? then false
    else before || (Creates(s, e) && e.delivery.Served?) || (e.InstanceStart? && e.delivery.Served?)
  }

  /** A reconcile ends here that succeeded and did not just wait: it created or started the
      instance, or recorded for the first time that it runs, and its patch landed. */
  predicate Productive(s: State, advanced: bool, e: Event)
    requires Legal(s, e)
  {
    && e.Patch? && e.specOk && e.statusOk
    && ((s.proc.pc == End(RequeueAfter10s) && advanced)
        || (s.proc.pc == End(Finished) && Recorded(s.proc.cur) && !Recorded(s.proc.orig)))
  }

  function ProductiveReconciles(s: State, log: seq<Event>): nat
    requires LegalRun(s, log)
  {
    if log == [] then 0
    else
      var init := log[..|log| - 1];
      ProductiveReconciles(s, init) + (if Productive(After(s, init), Advanced(s, init), log[|log| - 1]) then 1 else 0)
  }

  /** The instance runs, this is on record, and a reconcile in flight will not change it. */
  predicate Done(s: State) {
    && s.obj.Some? && Recorded(s.obj.value) && IsRunning(s)
    && (s.proc.Busy? ==> Recorded(s.proc.cur))
  }

  /** How many more productive reconciles the instance calls for: create or start, and record. */
  function PassesLeft(inst: Option<Instance>): nat {
    if inst.None? || inst.value.run.Stopped? then 2 else 1
  }

  /** An upper bound on the productive reconciles to come, the one in flight included. */
  function Potential(s: State, advanced: bool): nat {
    if s.proc.Busy? && s.proc.pc.Starting? then 2
    else if s.proc.Busy? && s.proc.pc == End(RequeueAfter10s) && advanced then PassesLeft(s.inst) + 1
    else if Done(s) then 0
    else PassesLeft(s.inst)
  }

  predicate PotentialFalls(s: State, advanced: bool, e: Event)
    requires Legal(s, e)
  {
    Potential(Apply(s, e), AdvancedAfter(s, advanced, e)) + (if Productive(s, advanced, e) then 1 else 0) <=
    Potential(s, advanced)
  }

  lemma PotentialAtEnvironment(s: State, advanced: bool, e: Event)
    requires Building(s) && Legal(s, e) && NoSetback(s, e) && IsEnvironment(e)
    ensures PotentialFalls(s, advanced, e)
  {
  }

  lemma PotentialAtBoundary(s: State, advanced: bool, e: Event)
    requires Building(s) && Legal(s, e) && (e.Enter? || e.Patch? || e.Crash?)
    ensures PotentialFalls(s, advanced, e)
  {
  }

  lemma PotentialAtView(s: State, advanced: bool, e: Event)
    requires Building(s) && Legal(s, e) && e.InstanceView? && !advanced
    ensures PotentialFalls(s, advanced, e)
  {
    if s.inst.Some? {
      ProviderId.PrintIsInjective(s.inst.value.id, "");
    }
  }

  lemma PotentialAtCreate(s: State, advanced: bool, e: Event)
    requires Building(s) && Legal(s, e) && e.InstanceCreate? && !advanced
    ensures PotentialFalls(s, advanced, e)
  {
  }

  lemma PotentialAtCall(s: State, advanced: bool, e: Event)
    requires Building(s) && Legal(s, e) && NoSetback(s, e)
    requires IsCall(e) && !e.InstanceView? && !e.InstanceCreate?
    ensures PotentialFalls(s, advanced, e)
  {
  }

  /** Whoever created the instance or had it started is past looking for it. */
  predicate KnowsInstance(p: Proc) {
    p.Busy? && !p.pc.Begin? && !p.pc.ReadyToCreate? && !p.pc.Adopting?
  }

  lemma PotentialStep(s: State, advanced: bool, e: Event)
    requires Building(s) && Legal(s, e) && NoSetback(s, e) && (advanced ==> KnowsInstance(s.proc))
    ensures PotentialFalls(s, advanced, e)
    ensures AdvancedAfter(s, advanced, e) ==> KnowsInstance(Apply(s, e).proc)
  {
    if IsEnvironment(e) {
      PotentialAtEnvironment(s, advanced, e);
    } else if !IsCall(e) {
      PotentialAtBoundary(s, advanced, e);
    } else if e.InstanceView? {
      PotentialAtView(s, advanced, e);
    } else if e.InstanceCreate? {
      PotentialAtCreate(s, advanced, e);
    } else {
      PotentialAtCall(s, advanced, e);
    }
    AdvancedKnows(s, advanced, e);
  }

  lemma AdvancedKnows(s: State, advanced: bool, e: Event)
    requires Building(s) && Legal(s, e) && (advanced ==> KnowsInstance(s.proc))
    ensures AdvancedAfter(s, advanced, e) ==> KnowsInstance(Apply(s, e).proc)
  {
  }

  /** Building up terminates in every run without setbacks, whatever reconciles crash, and
      whatever answers and patches get lost: each productive reconcile gets the machine a stage
      further, so two at most are enough for its instance to run and to be on record. If it has
      an address, nothing is then left to do. */
  lemma {:induction false} ProductiveReconcilesEndBuildup(s: State, log: seq<Event>)
    requires Inv(s) && Live(s) && LegalRun(s, log) && NoSetbacks(s, log)
    ensures var t := After(s, log);
            && Building(t) && (Advanced(s, log) ==> KnowsInstance(t.proc))
            && ProductiveReconciles(s, log) + Potential(t, Advanced(s, log)) <= PassesLeft(s.inst) <= 2
            && (ProductiveReconciles(s, log) >= PassesLeft(s.inst) ==> Done(t))
            && (Done(t) && t.obj.value.addrs != [] ==> MachineRuns.Steady(t))
  {
    if log != [] {
      var init, last := log[..|log| - 1], log[|log| - 1];
      ProductiveReconcilesEndBuildup(s, init);
      BuildingStep(After(s, init), last);
      PotentialStep(After(s, init), Advanced(s, init), last);
    }
  }

  // ---- A productive reconcile is always possible ------------------------------------------

  /** The instance is not in between two states. */
  predicate Settled(s: State) {
    if s.inst.Some? then s.inst.value.run.Running? || s.inst.value.run.Stopped?
    else s.disk.None? && s.obj.Some? && s.obj.value.pid == ""
  }

  /** An undisturbed reconcile of a settled machine, on its way to get it further. */
  predicate OnCourse(s: State, advanced: bool) {
    && Building(s) && s.proc.Busy? && (advanced ==> KnowsInstance(s.proc))
    && match s.proc.pc
       case Begin => Settled(s) && (Recorded(s.proc.orig) ==> !IsRunning(s))
       case ReadyToCreate => Settled(s) && s.proc.cur.pid == ""
       case Adopting => s.inst.Some? && Settled(s) && s.proc.orig.pid == ""
       case Starting(i) => s.inst == Some(i)
       case ListingNics(_) => !Recorded(s.proc.orig)
       case ListingIps(_, _) => !Recorded(s.proc.orig)
       case End(Finished) => Recorded(s.proc.cur) && !Recorded(s.proc.orig)
       case End(RequeueAfter10s) => advanced
       case _ => false
  }

  /** The next call, answered; what is created or started runs. */
  function NextCall(s: State, id: string): Event
    requires s.proc.Busy?
  {
    match s.proc.pc
    case Begin => if s.proc.cur.pid == "" then Bootstrap(Available) else InstanceView(true)
    case ReadyToCreate => InstanceCreate(Served, id, Running)
    case Adopting => InstanceView(true)
    case Starting(_) => InstanceStart(Served, Running)
    case ListingNics(_) => NicList(Some([]))
    case ListingIps(_, _) => ExternalIpList(Some([]))
    case _ => Patch(true, true)
  }

  function CallsLeft(p: Proc): nat {
    if p.Idle? then 0
    else
      match p.pc
      case Begin => 6
      case ReadyToCreate => 5
      case Adopting => 4
      case Starting(_) => 3
      case ListingNics(_) => 2
      case ListingIps(_, _) => 1
      case _ => 0
  }

  lemma CallHelps(s: State, advanced: bool, id: string)
    requires OnCourse(s, advanced) && !s.proc.pc.End? && id !in s.ids
    ensures var e := NextCall(s, id);
            && Legal(s, e) && NoSetback(s, e) && !IsEnvironment(e)
            && OnCourse(Apply(s, e), AdvancedAfter(s, advanced, e))
            && Apply(s, e).proc.orig == s.proc.orig
            && CallsLeft(Apply(s, e).proc) < CallsLeft(s.proc)
  {
    var e := NextCall(s, id);
    CallIsLegal(s, advanced, id);
    BuildingStep(s, e);
    if s.proc.pc.Begin? || s.proc.pc.Adopting? {
      LookHelps(s, advanced, id);
    } else if s.proc.pc.ReadyToCreate? {
      CreateHelps(s, advanced, id);
    } else {
      RestHelps(s, advanced, id);
    }
  }

  lemma CallIsLegal(s: State, advanced: bool, id: string)
    requires OnCourse(s, advanced) && !s.proc.pc.End? && id !in s.ids
    ensures var e := NextCall(s, id);
            Legal(s, e) && NoSetback(s, e) && !IsEnvironment(e) &&
            Apply(s, e).proc.Busy? && Apply(s, e).proc.orig == s.proc.orig
  {
  }

  lemma LookHelps(s: State, advanced: bool, id: string)
    requires OnCourse(s, advanced) && (s.proc.pc.Begin? || s.proc.pc.Adopting?) && id !in s.ids
    requires Legal(s, NextCall(s, id)) && Building(Apply(s, NextCall(s, id)))
    ensures OnCourse(Apply(s, NextCall(s, id)), AdvancedAfter(s, advanced, NextCall(s, id)))
    ensures CallsLeft(Apply(s, NextCall(s, id)).proc) < CallsLeft(s.proc)
  {
    if s.inst.Some? {
      ProviderId.PrintIsInjective(s.inst.value.id, "");
    }
  }

  lemma CreateHelps(s: State, advanced: bool, id: string)
    requires OnCourse(s, advanced) && s.proc.pc.ReadyToCreate? && id !in s.ids
    requires Legal(s, NextCall(s, id)) && Building(Apply(s, NextCall(s, id)))
    ensures OnCourse(Apply(s, NextCall(s, id)), AdvancedAfter(s, advanced, NextCall(s, id)))
    ensures CallsLeft(Apply(s, NextCall(s, id)).proc) < CallsLeft(s.proc)
  {
    ProviderId.PrintIsInjective(id, "");
  }

  lemma RestHelps(s: State, advanced: bool, id: string)
    requires OnCourse(s, advanced) && id !in s.ids
    requires s.proc.pc.Starting? || s.proc.pc.ListingNics? || s.proc.pc.ListingIps?
    requires Legal(s, NextCall(s, id)) && Building(Apply(s, NextCall(s, id)))
    ensures OnCourse(Apply(s, NextCall(s, id)), AdvancedAfter(s, advanced, NextCall(s, id)))
    ensures CallsLeft(Apply(s, NextCall(s, id)).proc) < CallsLeft(s.proc)
  {
  }

  /** A run without setbacks in which nobody but the controller makes or removes anything. */
  predicate AloneRun(s: State, log: seq<Event>) {
    LegalRun(s, log) && NoSetbacks(s, log) && NoneOutOfBand(log)
  }

  lemma {:induction false} Completes(s: State, log: seq<Event>) returns (more: seq<Event>)
    requires AloneRun(s, log) && OnCourse(After(s, log), Advanced(s, log))
    ensures AloneRun(s, more) && OnCourse(After(s, more), Advanced(s, more))
    ensures ProductiveReconciles(s, more) >= ProductiveReconciles(s, log)
    ensures After(s, more).proc.pc.End? && After(s, more).proc.orig == After(s, log).proc.orig
    decreases CallsLeft(After(s, log).proc)
  {
    more := log;
    var t := After(s, log);
    if !t.proc.pc.End? {
      var id := MachineRuns.FreshId(t.ids);
      var e := NextCall(t, id);
      CallHelps(t, Advanced(s, log), id);
      Extends(s, log, e);
      more := Completes(s, log + [e]);
    }
  }

  /** One more step of a run. */
  lemma Extends(s: State, log: seq<Event>, e: Event)
    requires AloneRun(s, log) && Legal(After(s, log), e) && NoSetback(After(s, log), e) && !IsOutOfBand(e)
    ensures AloneRun(s, log + [e]) && After(s, log + [e]) == Apply(After(s, log), e)
    ensures Advanced(s, log + [e]) == AdvancedAfter(After(s, log), Advanced(s, log), e)
    ensures ProductiveReconciles(s, log + [e]) ==
            ProductiveReconciles(s, log) + (if Productive(After(s, log), Advanced(s, log), e) then 1 else 0)
  {
    Snoc(s, log, e);
    assert (log + [e])[..|log|] == log;
  }

  lemma StartsOnCourse(s: State)
    requires Inv(s) && Live(s) && Settled(s) && !Done(s)
    ensures Legal(s, Enter(true)) && NoSetback(s, Enter(true)) && OnCourse(Apply(s, Enter(true)), false)
  {
    BuildingStep(s, Enter(true));
  }

  /** From every settled state in which something is left to do, a productive reconcile is
      possible. */
  lemma SettledMachineProgresses(s: State, log: seq<Event>) returns (more: seq<Event>)
    requires AloneRun(s, log)
    requires var t := After(s, log); Inv(t) && Live(t) && Settled(t) && !Done(t)
    ensures AloneRun(s, more) && After(s, more).proc.Idle?
    ensures ProductiveReconciles(s, more) > ProductiveReconciles(s, log)
  {
    var enter, patch := Enter(true), Patch(true, true);
    StartsOnCourse(After(s, log));
    Extends(s, log, enter);
    more := Completes(s, log + [enter]);
    Extends(s, more, patch);
    more := more + [patch];
  }

  // ---- When a machine is stuck ------------------------------------------------------------

  /** There is an instance that can come to run, or one can be created. */
  predicate CanGoOn(s: State)
    requires Live(s)
  {
    if s.inst.Some? then !s.inst.value.run.Destroyed? else s.disk.None? && s.obj.value.pid == ""
  }

  /** The instance is destroyed, or there is none and what is left of it keeps the controller from
      creating another: its boot disk, or its ID on record. */
  predicate Stuck(s: State) {
    && Building(s)
    && (if s.inst.Some? then s.inst.value.run.Destroyed? else s.disk.Some? || s.obj.value.pid != "")
    && (s.proc.Busy? ==>
          match s.proc.pc
          case Begin => true
          case ReadyToCreate => true
          case Adopting => true
          case End(Finished) => !Recorded(s.proc.cur)
          case End(_) => true
          case _ => false)
  }

  lemma StuckStep(s: State, advanced: bool, e: Event)
    requires Stuck(s) && !advanced && Legal(s, e) && NoSetback(s, e) && !IsOutOfBand(e)
    ensures Stuck(Apply(s, e)) && !AdvancedAfter(s, advanced, e) && !Productive(s, advanced, e)
  {
    BuildingStep(s, e);
    if IsEnvironment(e) {
      StuckMeanwhile(s, e);
    } else {
      StuckCall(s, advanced, e);
    }
  }

  lemma StuckMeanwhile(s: State, e: Event)
    requires Stuck(s) && Legal(s, e) && NoSetback(s, e) && IsEnvironment(e) && !IsOutOfBand(e)
    requires Building(Apply(s, e))
    ensures Stuck(Apply(s, e))
  {
  }

  lemma StuckCall(s: State, advanced: bool, e: Event)
    requires Stuck(s) && !advanced && Legal(s, e) && !IsEnvironment(e) && Building(Apply(s, e))
    ensures Stuck(Apply(s, e)) && !AdvancedAfter(s, advanced, e) && !Productive(s, advanced, e)
  {
  }

  lemma {:induction false} StuckRun(s: State, log: seq<Event>)
    requires Stuck(s) && s.proc.Idle? && AloneRun(s, log)
    ensures Stuck(After(s, log)) && !Advanced(s, log) && ProductiveReconciles(s, log) == 0
  {
    if log != [] {
      var init, last := log[..|log| - 1], log[|log| - 1];
      assert forall i :: 0 <= i < |init| ==> init[i] == log[i];
      StuckRun(s, init);
      StuckStep(After(s, init), Advanced(s, init), last);
    }
  }

  ghost predicate CanProgress(s: State) {
    exists log :: AloneRun(s, log) && ProductiveReconciles(s, log) >= 1
  }

  /** Exactly when building up gets any further without help from others: there is an instance
      that is not destroyed, or none and no boot disk or recorded ID of one. */
  lemma CanProgressIff(s: State)
    requires Inv(s) && Live(s) && !Done(s)
    ensures CanProgress(s) <==> CanGoOn(s)
  {
    if CanGoOn(s) {
      var log := BecomesSettled(s);
      log := SettledMachineProgresses(s, log);
    } else {
      forall log | AloneRun(s, log)
        ensures ProductiveReconciles(s, log) == 0
      {
        StuckRun(s, log);
      }
    }
  }

  lemma BecomesSettled(s: State) returns (log: seq<Event>)
    requires Inv(s) && Live(s) && !Done(s) && CanGoOn(s)
    ensures AloneRun(s, log)
    ensures var t := After(s, log); Inv(t) && Live(t) && Settled(t) && !Done(t)
  {
    log := [];
    assert After(s, log) == s;
    if !Settled(s) {
      if Recorded(s.obj.value) {
        log := NoticesItIsDown(s);
      }
      var t, e := After(s, log), RunStateChange(Running);
      assert Legal(t, e) && Apply(t, e) == t.(inst := Some(t.inst.value.(run := Running)));
      InvStep(t, e);
      Extends(s, log, e);
      log := log + [e];
    }
  }

  /** An undisturbed reconcile that finds the recorded instance not running takes that down. */
  lemma NoticesItIsDown(s: State) returns (log: seq<Event>)
    requires Inv(s) && Live(s) && Recorded(s.obj.value) && s.inst.Some?
    requires var run := s.inst.value.run; !run.Running? && !run.Stopped? && !run.Destroyed?
    ensures AloneRun(s, log)
    ensures var t := After(s, log);
            Inv(t) && Live(t) && t.inst == s.inst && t.obj.Some? && t.obj.value.ready.False?
  {
    log := SeesItDown(s);
    var u, patch := After(s, log), Patch(true, true);
    WholePatchCopies(s.obj.value, u.proc.cur);
    assert Legal(u, patch) && Apply(u, patch) == s.(obj := Some(u.proc.cur));
    Extends(s, log, patch);
    log := log + [patch];
    InvRun(s, log);
  }

  lemma SeesItDown(s: State) returns (log: seq<Event>)
    requires Live(s) && Recorded(s.obj.value) && s.inst.Some?
    requires var run := s.inst.value.run; !run.Running? && !run.Stopped? && !run.Destroyed?
    ensures AloneRun(s, log)
    ensures var o := s.obj.value;
            After(s, log) ==
            s.(proc := Busy(o, o.(ready := False(ReadyReason(s.inst))), End(RequeueAfter10s)))
  {
    var o, enter, view := s.obj.value, Enter(true), InstanceView(true);
    var t := s.(proc := Busy(o, o, Begin));
    log := [];
    assert AloneRun(s, log) && After(s, log) == s;
    assert Legal(s, enter) && Apply(s, enter) == t;
    Extends(s, log, enter);
    log := log + [enter];
    assert Legal(t, view) && Apply(t, view).proc == OnInstance(o, o, s.inst.value);
    Extends(s, log, view);
    log := log + [view];
  }
}
