/** What whole runs of one machine guarantee: one instance, clean teardown, and when not. */
module MachineRuns {
  import opened Basics
  import opened Cloud
  import opened MachineModel
  import opened MachineInvariants
  import Addresses
  import ProviderId

  // ---- Create or adopt, exactly once ------------------------------------------------------

  /** How many create requests took effect. */
  function Creations(s: State, log: seq<Event>): nat
    requires LegalRun(s, log)
  {
    if log == [] then 0
    else
      var init := log[..|log| - 1];
      Creations(s, init) + (if Creates(After(s, init), log[|log| - 1]) then 1 else 0)
  }

  lemma {:induction false} CreationsAreIds(s: State, log: seq<Event>)
    requires LegalRun(s, log)
    ensures |After(s, log).ids| >= |s.ids| + Creations(s, log)
  {
    if log != [] {
      CreationsAreIds(s, log[..|log| - 1]);
      CreationIsId(After(s, log[..|log| - 1]), log[|log| - 1]);
    }
  }

  lemma CreationIsId(s: State, e: Event)
    requires Legal(s, e)
    ensures |Apply(s, e).ids| >= |s.ids| + if Creates(s, e) then 1 else 0
  {
  }

  lemma AtMostOne<T>(ids: set<T>)
    requires forall x, y :: x in ids && y in ids ==> x == y
    ensures |ids| <= 1
  {
    if ids != {} {
      var x :| x in ids;
      assert ids == {x};
    }
  }

  predicate NeverMeddled(s: State, log: seq<Event>)
    requires LegalRun(s, log)
  {
    log == [] ||
    var init := log[..|log| - 1];
    NeverMeddled(s, init) && !Meddles(After(s, init), log[|log| - 1])
  }

  lemma {:induction false} SoleRun(s: State, log: seq<Event>)
    requires Init(s) && LegalRun(s, log) && NeverMeddled(s, log)
    ensures SoleInv(After(s, log))
  {
    if log == [] {
      InitInv(s);
    } else {
      SoleRun(s, log[..|log| - 1]);
      SoleStep(After(s, log[..|log| - 1]), log[|log| - 1]);
    }
  }

  /** Whatever crashes, lost answers and lost patches happen, at most one create takes effect
      (none if an instance was there to adopt), and a recorded provider ID is the printed id
      of the one instance there ever was. Others may do what they like with the disk, make the
      first instance, and take it away once its ID is on record. */
  lemma ExactlyOnce(s: State, log: seq<Event>)
    requires Init(s) && LegalRun(s, log) && NeverMeddled(s, log)
    ensures Creations(s, log) + (if s.inst.Some? then 1 else 0) <= 1
    ensures |After(s, log).ids| <= 1
    ensures var t := After(s, log);
            t.obj.Some? && t.obj.value.pid != "" ==>
              exists id :: t.ids == {id} && t.obj.value.pid == ProviderId.NewProviderID(id)
    ensures var t := After(s, log);
            t.obj.Some? && t.obj.value.pid != "" && t.inst.Some? ==>
              t.obj.value.pid == ProviderId.NewProviderID(t.inst.value.id)
  {
    SoleRun(s, log);
    CreationsAreIds(s, log);
    var t := After(s, log);
    AtMostOne(t.ids);
    if t.obj.Some? && t.obj.value.pid != "" {
      var id :| id in t.ids && t.obj.value.pid == ProviderId.NewProviderID(id);
      assert t.ids == {id};
    }
  }

  /** Nothing is recorded of this machine, and nothing is there. */
  predicate Blank(s: State) {
    && s.proc.Idle? && s.obj.Some? && !s.obj.value.deleting && s.obj.value.pid == ""
    && Cleared(s)
  }

  /** Without that assumption there is no bound: if others take instance and disk away before
      the ID is on record, a later reconcile creates them again, as often as that happens. */
  lemma {:induction false} MeddlingRecreates(s: State, n: nat) returns (log: seq<Event>)
    requires Blank(s)
    ensures LegalRun(s, log) && Creations(s, log) >= n && Blank(After(s, log))
    decreases n
  {
    log := [];
    if n > 0 {
      var pass := CreatedAndLost(s);
      var rest := MeddlingRecreates(After(s, pass), n - 1);
      Append(s, pass, rest);
      AppendCreations(s, pass, rest);
      log := pass + rest;
    }
  }

  lemma {:induction false} AppendCreations(s: State, log: seq<Event>, more: seq<Event>)
    requires LegalRun(s, log) && LegalRun(After(s, log), more) && LegalRun(s, log + more)
    ensures Creations(s, log + more) == Creations(s, log) + Creations(After(s, log), more)
  {
    if more == [] {
      assert log + more == log;
    } else {
      var init := more[..|more| - 1];
      assert (log + more)[..|log + more| - 1] == log + init;
      Append(s, log, init);
      AppendCreations(s, log, init);
    }
  }

  lemma Counted(s: State, log: seq<Event>, e: Event)
    requires LegalRun(s, log) && Legal(After(s, log), e)
    ensures LegalRun(s, log + [e]) && After(s, log + [e]) == Apply(After(s, log), e)
    ensures Creations(s, log + [e]) == Creations(s, log) + (if Creates(After(s, log), e) then 1 else 0)
  {
    Snoc(s, log, e);
    assert (log + [e])[..|log|] == log;
  }

  lemma CreatedAndLost(s: State) returns (log: seq<Event>)
    requires Blank(s)
    ensures LegalRun(s, log) && Creations(s, log) >= 1 && Blank(After(s, log))
  {
    log := CreatedAndCrashed(s);
    var t := After(s, log);
    assert Legal(t, OobInstanceGone) && Apply(t, OobInstanceGone) == t.(inst := None);
    Counted(s, log, OobInstanceGone);
    log := log + [OobInstanceGone];
    var u := After(s, log);
    assert Legal(u, OobDiskGone) && Apply(u, OobDiskGone) == u.(disk := None);
    Counted(s, log, OobDiskGone);
    log := log + [OobDiskGone];
  }

  lemma CreatedAndCrashed(s: State) returns (log: seq<Event>)
    requires Blank(s)
    ensures LegalRun(s, log) && Creations(s, log) >= 1
    ensures var t := After(s, log); t.obj == s.obj && t.proc.Idle? && t.inst.Some? && t.disk.Some?
  {
    log := AboutToCreate(s);
    var id := FreshId(s.ids);
    var t := After(s, log);
    var create := InstanceCreate(Served, id, Running);
    CreateLands(t, id);
    assert Creates(t, create);
    Counted(s, log, create);
    log := log + [create];
    var u := After(s, log);
    assert Legal(u, Crash) && Apply(u, Crash) == u.(proc := Idle);
    Counted(s, log, Crash);
    log := log + [Crash];
  }

  lemma FreshId(ids: set<string>) returns (id: string)
    ensures id !in ids
  {
    var n := LongerThanAll(ids);
    id := seq(n, _ => 'a');
  }

  lemma LongerThanAll(ids: set<string>) returns (n: nat)
    ensures forall id :: id in ids ==> |id| < n
  {
    n := 0;
    if ids != {} {
      var id :| id in ids;
      var m := LongerThanAll(ids - {id});
      n := if m > |id| then m else |id| + 1;
      assert forall x :: x in ids ==> x == id || x in ids - {id};
    }
  }

  /** The object's fields between any two moments of any run, out-of-band moves included: a
      provider ID, once set, never changes; `provisioned` stays true; addresses stay; a
      deletion mark stays. */
  lemma FieldsMoveOneWay(s: State, log: seq<Event>, more: seq<Event>)
    requires Init(s) && LegalRun(s, log) && LegalRun(After(s, log), more)
    ensures var (t, u) := (After(s, log), After(After(s, log), more));
            u.obj.Some? ==> t.obj.Some? && Evolves(t.obj.value, u.obj.value) && u.obj.value.provisioned != Some(false)
  {
    InitInv(s);
    InvRun(s, log);
    InvRun(After(s, log), more);
  }

  /** With a provider ID on record nothing is ever created again, even if the instance
      disappears behind the controller's back. */
  lemma {:induction false} NeverRecreated(s: State, log: seq<Event>)
    requires Inv(s) && s.proc.Idle? && s.obj.Some? && s.obj.value.pid != ""
    requires LegalRun(s, log)
    ensures Creations(s, log) == 0
    ensures var t := After(s, log);
            && Inv(t)
            && (t.obj.Some? ==> t.obj.value.pid != "")
            && (t.proc.Busy? ==> t.proc.orig.pid != "" && !t.proc.pc.ReadyToCreate?)
  {
    if log != [] {
      var init, last := log[..|log| - 1], log[|log| - 1];
      NeverRecreated(s, init);
      InvStep(After(s, init), last);
    }
  }

  // ---- Provisioned and the provider ID ----------------------------------------------------

  predicate ProvisionedHasId(o: Obj) {
    o.provisioned == Some(true) ==> o.pid != ""
  }

  predicate Identified(s: State) {
    s.obj.Some? ==> ProvisionedHasId(s.obj.value)
  }

  /** The copy in flight has its provider ID if the object it started from had. */
  predicate CopyIdentified(s: State) {
    s.proc.Busy? && ProvisionedHasId(s.proc.orig) ==> ProvisionedHasId(s.proc.cur)
  }

  lemma CopyIdentifiedStep(s: State, e: Event)
    requires Inv(s) && CopyIdentified(s) && Legal(s, e)
    ensures CopyIdentified(Apply(s, e))
  {
    if e.InstanceView? || e.InstanceCreate? {
      InstanceIdentifies(s, e);
    } else {
      CopyStaysIdentified(s, e);
    }
  }

  lemma InstanceIdentifies(s: State, e: Event)
    requires Inv(s) && CopyIdentified(s) && Legal(s, e) && (e.InstanceView? || e.InstanceCreate?)
    ensures CopyIdentified(Apply(s, e))
  {
    if e.InstanceCreate? {
      ProviderId.PrintIsInjective(e.id, "");
    } else if s.inst.Some? {
      ProviderId.PrintIsInjective(s.inst.value.id, "");
    }
  }

  lemma CopyStaysIdentified(s: State, e: Event)
    requires Inv(s) && CopyIdentified(s) && Legal(s, e) && !e.InstanceView? && !e.InstanceCreate?
    ensures CopyIdentified(Apply(s, e))
  {
  }

  /** Of a patch that provisions a machine for which no provider ID was on record, the status
      half lands and the spec half is lost. */
  predicate Splits(s: State, e: Event) {
    && e.Patch? && e.statusOk && !e.specOk
    && s.obj.Some? && s.proc.Busy? && s.proc.orig.pid == "" && s.proc.cur.provisioned == Some(true)
  }

  /** Exactly the steps that make a machine provisioned without a provider ID. */
  lemma IdLostIff(s: State, e: Event)
    requires Inv(s) && CopyIdentified(s) && Identified(s) && Legal(s, e)
    ensures Identified(Apply(s, e)) <==> !Splits(s, e)
  {
  }

  /** Exactly the steps that repair one: a spec half lands that has the ID, or the object goes. */
  lemma IdRegainedIff(s: State, e: Event)
    requires Inv(s) && !Identified(s) && Legal(s, e)
    ensures Identified(Apply(s, e)) <==>
            Apply(s, e).obj.None? || (e.Patch? && e.specOk && s.proc.cur.pid != "")
  {
  }

  predicate AlwaysIdentified(s: State, log: seq<Event>)
    requires LegalRun(s, log)
  {
    Identified(After(s, log)) && (log == [] || AlwaysIdentified(s, log[..|log| - 1]))
  }

  predicate NeverSplit(s: State, log: seq<Event>)
    requires LegalRun(s, log)
  {
    log == [] ||
    var init := log[..|log| - 1];
    NeverSplit(s, init) && !Splits(After(s, init), log[|log| - 1])
  }

  /** In a run a provisioned machine always has its provider ID exactly when no patch of the
      run splits. */
  lemma {:induction false} AlwaysIdentifiedIff(s: State, log: seq<Event>)
    requires Init(s) && LegalRun(s, log)
    ensures Inv(After(s, log)) && CopyIdentified(After(s, log))
    ensures AlwaysIdentified(s, log) <==> NeverSplit(s, log)
  {
    if log == [] {
      InitInv(s);
    } else {
      var init, last := log[..|log| - 1], log[|log| - 1];
      var t := After(s, init);
      AlwaysIdentifiedIff(s, init);
      InvStep(t, last);
      CopyIdentifiedStep(t, last);
      if AlwaysIdentified(s, init) {
        assert Identified(t);
        IdLostIff(t, last);
      }
    }
  }

  /** In particular it always has its ID if no status half lands without its spec half. */
  lemma {:induction false} SpecWithStatusKeepsIds(s: State, log: seq<Event>)
    requires LegalRun(s, log)
    requires forall i :: 0 <= i < |log| && log[i].Patch? ==> log[i].statusOk ==> log[i].specOk
    ensures NeverSplit(s, log)
    ensures Init(s) ==> AlwaysIdentified(s, log)
  {
    if log != [] {
      SpecWithStatusKeepsIds(s, log[..|log| - 1]);
    }
    if Init(s) {
      AlwaysIdentifiedIff(s, log);
    }
  }

  /** If only the status half lands, the object is provisioned without a provider ID: this is
      why the floating IP scan tests both fields. */
  lemma StatusHalfAlone(s: State) returns (log: seq<Event>)
    requires Init(s) && s.inst.None? && s.disk.None?
    ensures LegalRun(s, log) && NoneOutOfBand(log)
    ensures After(s, log).obj.Some? && !ProvisionedHasId(After(s, log).obj.value)
  {
    log := FirstInstance(s);
    log := Extended(s, log, NicList(None));
    log := Extended(s, log, Patch(false, true));
  }

  lemma FirstInstance(s: State) returns (log: seq<Event>)
    requires Init(s) && s.inst.None? && s.disk.None?
    ensures LegalRun(s, log) && NoneOutOfBand(log)
    ensures var t := After(s, log);
            && t.obj == s.obj && At(t, ListingNics(Instance("", Running)))
            && t.proc.orig == s.obj.value && t.proc.cur.provisioned == Some(true)
  {
    log := AboutToCreate(s);
    CreateRunning(After(s, log), "");
    log := Extended(s, log, InstanceCreate(Served, "", Running));
  }

  lemma AboutToCreate(s: State) returns (log: seq<Event>)
    requires s.proc.Idle? && s.obj.Some? && !s.obj.value.deleting && s.obj.value.pid == ""
    ensures LegalRun(s, log) && NoneOutOfBand(log)
    ensures After(s, log) == s.(proc := Busy(s.obj.value, s.obj.value.(fin := true), ReadyToCreate))
  {
    var o := s.obj.value;
    var t := s.(proc := Busy(o, o.(fin := true), Begin));
    assert Legal(s, Enter(true)) && Apply(s, Enter(true)) == t;
    assert Legal(t, Bootstrap(Available));
    TwoSteps(s, Enter(true), Bootstrap(Available));
    log := [Enter(true), Bootstrap(Available)];
  }

  lemma CreateRunning(s: State, id: string)
    requires At(s, ReadyToCreate) && s.inst.None? && s.disk.None? && id !in s.ids && s.proc.cur.addrs == []
    ensures var e := InstanceCreate(Served, id, Running);
            && Legal(s, e)
            && var t := Apply(s, e);
            && t.obj == s.obj && At(t, ListingNics(Instance(id, Running)))
            && t.proc.orig == s.proc.orig && t.proc.cur.provisioned == Some(true)
  {
  }

  lemma Extended(s: State, log: seq<Event>, e: Event) returns (more: seq<Event>)
    requires LegalRun(s, log) && NoneOutOfBand(log) && Legal(After(s, log), e) && !IsOutOfBand(e)
    ensures more == log + [e] && LegalRun(s, more) && NoneOutOfBand(more)
    ensures After(s, more) == Apply(After(s, log), e)
  {
    Snoc(s, log, e);
    more := log + [e];
  }

  // ---- Teardown safety --------------------------------------------------------------------

  predicate Cleared(s: State) {
    s.inst.None? && s.disk.None?
  }

  predicate NeverIntruded(s: State, log: seq<Event>)
    requires LegalRun(s, log)
  {
    log == [] ||
    var init := log[..|log| - 1];
    NeverIntruded(s, init) && !Intrudes(After(s, init), log[|log| - 1])
  }

  lemma {:induction false} ClearRun(s: State, log: seq<Event>)
    requires ClearInv(s) && LegalRun(s, log) && NeverIntruded(s, log)
    ensures ClearInv(After(s, log))
  {
    if log != [] {
      ClearRun(s, log[..|log| - 1]);
      ClearStep(After(s, log[..|log| - 1]), log[|log| - 1]);
    }
  }

  /** A step that takes the finalizer off, or the object away with it, happens only when the
      instance and the boot disk are both gone, and leaves no reconcile behind, unless others
      make one after the deletion saw that it was gone. Only the last reconcile matters: `log`
      may start at any moment at which none is in flight. */
  lemma FinalizerDropIsSafe(s: State, before: seq<Event>, log: seq<Event>, e: Event)
    requires Init(s) && LegalRun(s, before) && After(s, before).proc.Idle?
    requires var b := After(s, before); LegalRun(b, log) && NeverIntruded(b, log) && Legal(After(b, log), e)
    requires var t := After(After(s, before), log); t.obj.Some? && t.obj.value.fin
    requires var u := Apply(After(After(s, before), log), e); u.obj.None? || !u.obj.value.fin
    ensures var u := Apply(After(After(s, before), log), e); u.obj.None? && Cleared(u) && u.proc.Idle?
  {
    InitInv(s);
    InvRun(s, before);
    ClearRun(After(s, before), log);
  }

  /** If they do, the finalizer goes over a live instance. */
  lemma IntruderIsLeft(s: State) returns (log: seq<Event>)
    requires Inv(s) && s.proc.Idle? && s.obj.Some? && s.obj.value.deleting && Cleared(s)
    ensures LegalRun(s, log) && After(s, log).obj.None? && After(s, log).inst.Some?
  {
    var id := FreshId(s.ids);
    log := SeesNothing(s);
    var t, intruder, patch := After(s, log), OobInstance(id, Running), Patch(true, true);
    var u := t.(inst := Some(Instance(id, Running)), ids := t.ids + {id});
    assert Legal(t, intruder) && Apply(t, intruder) == u && Intrudes(t, intruder);
    Snoc(s, log, intruder);
    log := log + [intruder];
    assert Legal(u, patch) && Apply(u, patch).obj.None? && Apply(u, patch).inst.Some?;
    Snoc(s, log, patch);
    log := log + [patch];
  }

  lemma SeesNothing(s: State) returns (log: seq<Event>)
    requires s.proc.Idle? && s.obj.Some? && s.obj.value.deleting && Cleared(s)
    ensures LegalRun(s, log)
    ensures var t := After(s, log);
            && t == s.(proc := t.proc) && At(t, End(Verdict.Finished))
            && t.proc.orig == s.obj.value && !t.proc.cur.fin
  {
    var o := s.obj.value;
    var start, view, disk := Enter(true), InstanceView(true), DiskView(true);
    var t, u := s.(proc := Busy(o, o, DelView)), s.(proc := OnInstanceAbsent(o, o));
    assert Legal(s, start) && Apply(s, start) == t;
    assert Legal(t, view) && Apply(t, view) == u;
    TwoSteps(s, start, view);
    SeesNoDisk(u);
    Snoc(s, [start, view], disk);
    log := [start, view] + [disk];
  }

  lemma SeesNoDisk(s: State)
    requires At(s, DelDisk) && s.disk.None?
    ensures Legal(s, DiskView(true))
    ensures Apply(s, DiskView(true)) == s.(proc := OnAllGone(s.proc.orig, s.proc.cur))
  {
  }

  /** Nothing left and no reconcile that could still build: this is for good. */
  predicate Finished(s: State) {
    s.obj.None? && Cleared(s) && !OnNormalPath(s.proc)
  }

  lemma {:induction false} FinishedForGood(s: State, log: seq<Event>)
    requires Inv(s) && Finished(s) && LegalRun(s, log) && NoneMadeByOthers(log)
    ensures Inv(After(s, log)) && Finished(After(s, log))
  {
    if log != [] {
      var init, last := log[..|log| - 1], log[|log| - 1];
      FinishedForGood(s, init);
      InvStep(After(s, init), last);
    }
  }

  // ---- When deletion leaks ----------------------------------------------------------------

  /** However the run goes on, as long as others make nothing: the object does not disappear
      before what was built for it. */
  ghost predicate NeverLeaks(s: State) {
    forall more :: LegalRun(s, more) && NoneMadeByOthers(more) ==> NotLeaked(After(s, more))
  }

  predicate NotLeaked(s: State) {
    s.obj.None? ==> Cleared(s)
  }

  /** The finalizer is on record, or there is nothing it would have to protect. */
  predicate SafeToDelete(s: State)
    requires s.obj.Some?
  {
    s.obj.value.fin || (Cleared(s) && !MayCreate(s.proc))
  }

  /** The finalizer is set in memory before the instance is created but reaches the API server
      only with the patch at the end. So deleting a machine is clean exactly when that patch
      has landed, or nothing was created and no reconcile is about to create. */
  lemma DeletionIsCleanIff(s: State, log: seq<Event>)
    requires Init(s) && LegalRun(s, log)
    requires After(s, log).obj.Some? && !After(s, log).obj.value.deleting
    ensures NeverLeaks(Apply(After(s, log), UserDelete)) <==> SafeToDelete(After(s, log))
  {
    InitInv(s);
    InvRun(s, log);
    var t := After(s, log);
    var u := Apply(t, UserDelete);
    assert ClearInv(t);
    ClearStep(t, UserDelete);
    if SafeToDelete(t) {
      forall more | LegalRun(u, more) && NoneMadeByOthers(more)
        ensures NotLeaked(After(u, more))
      {
        if t.obj.value.fin {
          DeletedRun(u, more);
        } else {
          UnguardedRun(u, more);
        }
      }
    } else {
      var more := LeakingRun(t);
      assert !NotLeaked(After(u, more));
    }
  }

  lemma {:induction false} DeletedRun(s: State, log: seq<Event>)
    requires ClearInv(s) && LegalRun(s, log) && NoneMadeByOthers(log)
    requires s.obj.Some? && s.obj.value.deleting
    ensures var t := After(s, log);
            ClearInv(t) && if t.obj.Some? then t.obj.value.deleting else Finished(t)
  {
    if log != [] {
      var init, last := log[..|log| - 1], log[|log| - 1];
      DeletedRun(s, init);
      ClearStep(After(s, init), last);
    }
  }

  lemma {:induction false} UnguardedRun(s: State, log: seq<Event>)
    requires Inv(s) && LegalRun(s, log) && NoneMadeByOthers(log)
    requires s.obj.None? && Cleared(s) && !MayCreate(s.proc)
    ensures var t := After(s, log);
            Inv(t) && t.obj.None? && Cleared(t) && !MayCreate(t.proc)
  {
    if log != [] {
      var init, last := log[..|log| - 1], log[|log| - 1];
      UnguardedRun(s, init);
      InvStep(After(s, init), last);
    }
  }

  /** How an unsafe deletion goes wrong: at once, or when the create already under way lands. */
  lemma LeakingRun(s: State) returns (more: seq<Event>)
    requires Inv(s) && s.obj.Some? && !s.obj.value.deleting && !SafeToDelete(s)
    ensures var u := Apply(s, UserDelete);
            LegalRun(u, more) && NoneMadeByOthers(more) && !NotLeaked(After(u, more))
  {
    var u := Apply(s, UserDelete);
    if Cleared(s) {
      more := StillCreates(u);
    } else {
      more := [];
    }
  }

  /** A reconcile under way to a create request gets there, whatever became of the object. */
  lemma StillCreates(s: State) returns (log: seq<Event>)
    requires MayCreate(s.proc) && Cleared(s)
    ensures LegalRun(s, log) && NoneMadeByOthers(log)
    ensures After(s, log).obj == s.obj && After(s, log).inst.Some?
  {
    var id := FreshId(s.ids);
    var ready, create := Bootstrap(Available), InstanceCreate(Served, id, Running);
    if s.proc.pc.Begin? {
      var t := s.(proc := Busy(s.proc.orig, s.proc.cur, ReadyToCreate));
      assert Legal(s, ready) && Apply(s, ready) == t;
      CreateLands(t, id);
      TwoSteps(s, ready, create);
      log := [ready, create];
    } else {
      CreateLands(s, id);
      OneStep(s, create);
      log := [create];
    }
  }

  lemma CreateLands(s: State, id: string)
    requires At(s, ReadyToCreate) && Cleared(s) && id !in s.ids
    ensures var create := InstanceCreate(Served, id, Running);
            && Legal(s, create) && Apply(s, create).proc.Busy?
            && Apply(s, create).obj == s.obj && Apply(s, create).inst.Some? && Apply(s, create).disk.Some?
  {
  }

  // ---- The order of requests --------------------------------------------------------------

  predicate Builds(e: Event) {
    e.InstanceCreate? || e.InstanceStart?
  }

  predicate Destroys(e: Event) {
    e.InstanceStop? || e.InstanceDelete? || e.DiskDelete?
  }

  /** In every run all create and start requests come before all stop and delete requests. */
  lemma {:induction false} BuildThenDestroy(s: State, log: seq<Event>)
    requires Inv(s) && LegalRun(s, log)
    ensures forall i, j :: 0 <= i < j < |log| && Destroys(log[i]) ==> !Builds(log[j])
    ensures Inv(After(s, log))
    ensures (exists i :: 0 <= i < |log| && Destroys(log[i])) ==> Tearing(After(s, log))
  {
    if log != [] {
      var init, last := log[..|log| - 1], log[|log| - 1];
      BuildThenDestroy(s, init);
      InvStep(After(s, init), last);
      if Tearing(After(s, init)) {
        TearingStep(After(s, init), last);
      } else {
        assert forall i :: 0 <= i < |init| ==> !Destroys(log[i]) by {
          assert forall i :: 0 <= i < |init| ==> log[i] == init[i];
        }
      }
    }
  }

  predicate SameReconcile(log: seq<Event>, i: nat, j: nat)
    requires i <= j <= |log|
  {
    forall k :: i <= k < j ==> !log[k].Enter? && !log[k].Patch? && !log[k].Crash?
  }

  /** The call is answered, and its answer is that there is no instance. */
  predicate AnswersNoInstance(s: State, e: Event) {
    s.inst.None? && ((e.InstanceView? && e.up) || ((e.InstanceStop? || e.InstanceDelete?) && e.delivery.Served?))
  }

  predicate SawNoInstance(s: State, log: seq<Event>, i: nat)
    requires i < |log| && LegalRun(s, log)
  {
    PrefixLegal(s, log, i);
    AnswersNoInstance(After(s, log[..i]), log[i])
  }

  predicate SawDeletableDisk(s: State, log: seq<Event>, k: nat)
    requires k < |log| && LegalRun(s, log)
  {
    PrefixLegal(s, log, k);
    var disk := After(s, log[..k]).disk;
    (disk == Some(Detached) || disk == Some(Faulted)) && log[k].DiskView? && log[k].up
  }

  lemma {:induction false} PrefixLegal(s: State, log: seq<Event>, i: nat)
    requires i <= |log| && LegalRun(s, log)
    ensures LegalRun(s, log[..i])
  {
    if i == |log| {
      assert log[..i] == log;
    } else {
      PrefixLegal(s, log[..|log| - 1], i);
      assert log[..|log| - 1][..i] == log[..i];
    }
  }

  lemma StillSeen(s: State, log: seq<Event>, e: Event, i: nat)
    requires i < |log| && LegalRun(s, log + [e]) && LegalRun(s, log)
    ensures SawNoInstance(s, log, i) ==> SawNoInstance(s, log + [e], i)
    ensures SawDeletableDisk(s, log, i) ==> SawDeletableDisk(s, log + [e], i)
    ensures SameReconcile(log, i, |log|) && !e.Enter? && !e.Patch? && !e.Crash? ==>
            SameReconcile(log + [e], i, |log| + 1)
  {
    assert (log + [e])[..i] == log[..i];
    assert forall k :: 0 <= k < |log| ==> (log + [e])[k] == log[k];
  }

  predicate InDiskPhase(s: State) {
    s.proc.Busy? && (s.proc.pc.DelDisk? || s.proc.pc.DelDiskSeen?)
  }

  lemma EntersDiskPhase(s: State, e: Event)
    requires Legal(s, e) && InDiskPhase(Apply(s, e))
    ensures InDiskPhase(s) || AnswersNoInstance(s, e)
    ensures InDiskPhase(s) ==> !e.Enter? && !e.Patch? && !e.Crash?
    ensures Apply(s, e).proc.pc.DelDiskSeen? ==> InDiskPhase(s)
    ensures Apply(s, e).proc.pc.DelDiskSeen? && !s.proc.pc.DelDiskSeen? ==> e.DiskView? && e.up && CanDeleteDisk(s)
  {
  }

  /** A reconcile that has reached the disk saw, itself, that the instance was gone. */
  lemma {:induction false} DiskPhaseSawAbsence(s: State, log: seq<Event>) returns (i: nat, k: nat)
    requires s.proc.Idle? && LegalRun(s, log) && InDiskPhase(After(s, log))
    ensures i < |log| && SawNoInstance(s, log, i) && SameReconcile(log, i, |log|)
    ensures After(s, log).proc.pc.DelDiskSeen? ==> i < k < |log| && SawDeletableDisk(s, log, k)
  {
    var init, last := log[..|log| - 1], log[|log| - 1];
    assert log == init + [last];
    EntersDiskPhase(After(s, init), last);
    i, k := |init|, |init|;
    if InDiskPhase(After(s, init)) {
      var k';
      i, k' := DiskPhaseSawAbsence(s, init);
      StillSeen(s, init, last, i);
      if After(s, init).proc.pc.DelDiskSeen? {
        k := k';
        StillSeen(s, init, last, k);
      }
    }
  }

  /** Every disk delete request is preceded, in the same reconcile, by an answer that the
      instance is gone and then by an answered view of the disk as detached or faulted. */
  lemma DiskDeleteIsJustified(s: State, log: seq<Event>) returns (i: nat, k: nat)
    requires s.proc.Idle? && LegalRun(s, log) && log != [] && log[|log| - 1].DiskDelete?
    ensures i < k < |log| - 1 && SawNoInstance(s, log, i) && SawDeletableDisk(s, log, k)
    ensures SameReconcile(log, i, |log|)
  {
    var init, last := log[..|log| - 1], log[|log| - 1];
    assert log == init + [last];
    i, k := DiskPhaseSawAbsence(s, init);
    StillSeen(s, init, last, i);
    StillSeen(s, init, last, k);
  }

  // ---- Addresses --------------------------------------------------------------------------

  predicate AllInternal(addrs: seq<Address>) {
    forall a :: a in addrs ==> a.InternalIP?
  }

  predicate InternalSoFar(s: State) {
    && !s.pool
    && (s.obj.Some? ==> AllInternal(s.obj.value.addrs))
    && (s.proc.Busy? ==> AllInternal(s.proc.cur.addrs) && !s.proc.pc.ListingIps?)
  }

  /** Without an IP pool in its spec a machine never records an external address. */
  lemma {:induction false} ExternalOnlyWithPool(s: State, log: seq<Event>)
    requires Init(s) && !s.pool && LegalRun(s, log)
    ensures InternalSoFar(After(s, log))
  {
    if log != [] {
      var init, last := log[..|log| - 1], log[|log| - 1];
      ExternalOnlyWithPool(s, init);
      if last.NicList? && last.nics.Some? {
        forall a | a in Addresses.OfStacks(last.nics.value)
          ensures a.InternalIP?
        {
          Addresses.StacksAreInternal(last.nics.value, a);
        }
      }
      if IsEnvironment(last) {
        InternalMeanwhile(After(s, init), last);
      } else {
        InternalStep(After(s, init), last);
      }
    }
  }

  lemma InternalStep(s: State, e: Event)
    requires InternalSoFar(s) && Legal(s, e) && !IsEnvironment(e)
    requires e.NicList? && e.nics.Some? ==> AllInternal(Addresses.OfStacks(e.nics.value))
    ensures InternalSoFar(Apply(s, e))
  {
  }

  lemma InternalMeanwhile(s: State, e: Event)
    requires InternalSoFar(s) && Legal(s, e) && IsEnvironment(e)
    ensures InternalSoFar(Apply(s, e))
  {
  }

  // ---- Recovery ---------------------------------------------------------------------------

  /** An instance is there, but no provider ID is on record; a status half that landed alone may
      have left anything else. */
  predicate Forgotten(s: State) {
    s.proc.Idle? && s.obj.Some? && s.inst.Some? && !s.obj.value.deleting && s.obj.value.pid == ""
  }

  /** The calls of an undisturbed reconcile that finds its instance already there. A stopped one
      is started and `started` is what the cloud says of it then; the addresses of a running
      one are looked up if they are not known. */
  function AdoptingPass(s: State, started: RunState, nics: seq<IpStack>, ips: seq<ExternalIp>): seq<Event>
    requires Forgotten(s)
  {
    [Enter(true), Bootstrap(Available), InstanceCreate(Served, "", Running)] + [InstanceView(true)] +
    CallsOnInstance(s, started, nics, ips) + [Patch(true, true)]
  }

  function CallsOnInstance(s: State, started: RunState, nics: seq<IpStack>, ips: seq<ExternalIp>): seq<Event>
    requires Forgotten(s)
  {
    if s.inst.value.run.Stopped? then [InstanceStart(Served, started)]
    else if s.inst.value.run.Running? && s.obj.value.addrs == [] then AddressCalls(s.pool, nics, ips)
    else []
  }

  function AddressCalls(pool: bool, nics: seq<IpStack>, ips: seq<ExternalIp>): seq<Event> {
    [NicList(Some(nics))] + (if pool then [ExternalIpList(Some(ips))] else [])
  }

  /** What such a reconcile records: the provider ID always, whether the machine is ready and
      why, and for a running instance that it is provisioned, and its addresses. */
  function Adopted(s: State, started: RunState, nics: seq<IpStack>, ips: seq<ExternalIp>): Obj
    requires Forgotten(s)
  {
    var o := WithId(s);
    match s.inst.value.run
    case Running => o.(addrs := if o.addrs == [] then AddressesOf(s.pool, nics, ips) else o.addrs,
                       provisioned := Some(true), ready := True(ReadyReason(s.inst)))
    case Stopped => o.(ready := False(InstanceReason(Some(started))))
    case _ => o.(ready := False(ReadyReason(s.inst)))
  }

  function WithId(s: State): Obj
    requires Forgotten(s)
  {
    s.obj.value.(fin := true, pid := ProviderId.NewProviderID(s.inst.value.id))
  }

  /** However many patches were lost, wholly or by half, one undisturbed reconcile adopts the
      instance and records all there is to know about it, without creating anything; a machine
      whose instance is running and has an address then needs nothing more. */
  lemma AdoptionRecovers(s: State, started: RunState, nics: seq<IpStack>, ips: seq<ExternalIp>)
    requires Inv(s) && Forgotten(s) && UnknownStack !in nics && !started.Destroyed?
    ensures var pass := AdoptingPass(s, started, nics, ips);
            && LegalRun(s, pass)
            && var t := After(s, pass);
            && t == s.(obj := Some(Adopted(s, started, nics, ips)), inst := Some(InstanceAfter(s, started)))
            && (s.inst.value.run.Running? && t.obj.value.addrs != [] ==> Steady(t))
  {
    ProviderId.PrintIsInjective(s.inst.value.id, "");
    var log := AdoptionRun(s, started, nics, ips);
    RecordLands(s, log, Adopted(s, started, nics, ips), InstanceAfter(s, started));
  }

  lemma AdoptionRun(s: State, started: RunState, nics: seq<IpStack>, ips: seq<ExternalIp>) returns (log: seq<Event>)
    requires Inv(s) && Forgotten(s) && UnknownStack !in nics && !started.Destroyed?
    ensures log == [Enter(true), Bootstrap(Available), InstanceCreate(Served, "", Running)] + [InstanceView(true)] +
                   CallsOnInstance(s, started, nics, ips)
    ensures LegalRun(s, log)
    ensures var t := After(s, log);
            && t == s.(inst := Some(InstanceAfter(s, started)), proc := t.proc)
            && t.proc.Busy? && t.proc.pc.End?
            && t.proc.orig == s.obj.value && t.proc.cur == Adopted(s, started, nics, ips)
  {
    log := ConflictFound(s);
    InstanceAdopted(s, log);
    log := log + [InstanceView(true)];
    if s.inst.value.run.Stopped? {
      log := AdoptedStarts(s, log, started);
    } else if s.inst.value.run.Running? && s.obj.value.addrs == [] {
      var cur := WithId(s).(provisioned := Some(true), ready := True(ReadyReason(s.inst)));
      log := AddressesRead(s, log, cur, nics, ips);
    } else {
      assert log + [] == log;
    }
  }

  function InstanceAfter(s: State, started: RunState): Instance
    requires Forgotten(s)
  {
    if s.inst.value.run.Stopped? then s.inst.value.(run := started) else s.inst.value
  }

  function AddressesOf(pool: bool, nics: seq<IpStack>, ips: seq<ExternalIp>): seq<Address> {
    if pool then Addresses.OfStacks(nics) + Addresses.OfExternal(ips) else Addresses.OfStacks(nics)
  }

  lemma AddressesRead(s: State, log: seq<Event>, cur: Obj, nics: seq<IpStack>, ips: seq<ExternalIp>)
    returns (more: seq<Event>)
    requires LegalRun(s, log) && s.obj.Some? && s.inst.Some? && UnknownStack !in nics
    requires After(s, log) == s.(proc := Busy(s.obj.value, cur, ListingNics(s.inst.value)))
    ensures more == log + AddressCalls(s.pool, nics, ips)
    ensures LegalRun(s, more)
    ensures After(s, more) ==
            s.(proc := Busy(s.obj.value, cur.(addrs := AddressesOf(s.pool, nics, ips)), End(Verdict.Finished)))
  {
    var t := After(s, log);
    var nicList, ipList := NicList(Some(nics)), ExternalIpList(Some(ips));
    NicsRead(t, nics);
    Snoc(s, log, nicList);
    more := log + [nicList];
    if s.pool {
      var u := After(s, more);
      IpsRead(u, ips);
      Snoc(s, more, ipList);
      more := more + [ipList];
      assert more == log + ([nicList] + [ipList]);
    } else {
      assert more == log + ([nicList] + []);
    }
  }

  lemma NicsRead(s: State, nics: seq<IpStack>)
    requires s.proc.Busy? && s.proc.pc.ListingNics? && UnknownStack !in nics
    ensures Legal(s, NicList(Some(nics)))
    ensures var (p, a) := (s.proc, Addresses.OfStacks(nics));
            Apply(s, NicList(Some(nics))) ==
            s.(proc := if s.pool then Busy(p.orig, p.cur, ListingIps(p.pc.instance, a))
                       else Busy(p.orig, p.cur.(addrs := a), End(Verdict.Finished)))
  {
  }

  lemma IpsRead(s: State, ips: seq<ExternalIp>)
    requires s.proc.Busy? && s.proc.pc.ListingIps?
    ensures Legal(s, ExternalIpList(Some(ips)))
    ensures var p := s.proc;
            Apply(s, ExternalIpList(Some(ips))) ==
            s.(proc := Busy(p.orig, p.cur.(addrs := p.pc.nicAddrs + Addresses.OfExternal(ips)), End(Verdict.Finished)))
  {
  }

  lemma ConflictFound(s: State) returns (log: seq<Event>)
    requires Inv(s) && Forgotten(s)
    ensures log == [Enter(true), Bootstrap(Available), InstanceCreate(Served, "", Running)]
    ensures LegalRun(s, log)
    ensures After(s, log) == s.(proc := Busy(s.obj.value, s.obj.value.(fin := true), Adopting))
  {
    var o := s.obj.value;
    var a, b, c := Enter(true), Bootstrap(Available), InstanceCreate(Served, "", Running);
    var t := s.(proc := Busy(o, o.(fin := true), Begin));
    var u := s.(proc := Busy(o, o.(fin := true), ReadyToCreate));
    assert Legal(s, a) && Apply(s, a) == t;
    assert Legal(t, b) && Apply(t, b) == u;
    assert Legal(u, c) && Apply(u, c) == s.(proc := Busy(o, o.(fin := true), Adopting));
    TwoSteps(s, a, b);
    Snoc(s, [a, b], c);
    log := [a, b] + [c];
  }

  lemma InstanceAdopted(s: State, log: seq<Event>)
    requires Inv(s) && Forgotten(s) && LegalRun(s, log)
    requires After(s, log) == s.(proc := Busy(s.obj.value, s.obj.value.(fin := true), Adopting))
    ensures LegalRun(s, log + [InstanceView(true)])
    ensures After(s, log + [InstanceView(true)]) ==
            s.(proc := OnInstance(s.obj.value, WithId(s), s.inst.value))
  {
    Snoc(s, log, InstanceView(true));
  }

  lemma AdoptedStarts(s: State, log: seq<Event>, started: RunState) returns (more: seq<Event>)
    requires Forgotten(s) && s.inst.value.run.Stopped? && !started.Destroyed? && LegalRun(s, log)
    requires After(s, log) == s.(proc := OnInstance(s.obj.value, WithId(s), s.inst.value))
    ensures more == log + [InstanceStart(Served, started)] && LegalRun(s, more)
    ensures After(s, more) ==
            s.(inst := Some(InstanceAfter(s, started)),
               proc := Busy(s.obj.value, WithId(s).(ready := False(InstanceReason(Some(started)))),
                            End(RequeueAfter10s)))
  {
    Snoc(s, log, InstanceStart(Served, started));
    more := log + [InstanceStart(Served, started)];
  }

  /** The patch at the end writes everything the reconcile changed. */
  lemma RecordLands(s: State, log: seq<Event>, cur: Obj, inst: Instance)
    requires s.obj.Some? && !s.obj.value.deleting && LegalRun(s, log) && !cur.deleting
    requires var t := After(s, log);
             && t == s.(inst := Some(inst), proc := t.proc)
             && t.proc.Busy? && t.proc.pc.End? && t.proc.orig == s.obj.value && t.proc.cur == cur
    ensures LegalRun(s, log + [Patch(true, true)])
    ensures After(s, log + [Patch(true, true)]) == s.(inst := Some(inst), proc := Idle, obj := Some(cur))
  {
    WholePatchCopies(s.obj.value, cur);
    var t := After(s, log);
    assert Legal(t, Patch(true, true)) && Apply(t, Patch(true, true)) == t.(proc := Idle, obj := Some(cur));
    Snoc(s, log, Patch(true, true));
  }

  /** The reconcile waits for bootstrap data, having changed nothing but the finalizer. */
  predicate AwaitsBootstrap(orig: Obj, cur: Obj) {
    orig.pid == "" && cur == orig.(fin := true, ready := False(WaitingForBootstrapData))
  }

  /** What a reconcile on the normal path has to show for itself. */
  predicate OutcomeOk(p: Proc) {
    p.Busy? && !p.orig.deleting ==>
      match p.pc
      case Begin => p.cur == p.orig.(fin := true)
      case Starting(_) => p.cur.pid != ""
      case ListingNics(_) => p.cur.pid != "" && p.cur.provisioned == Some(true) && p.cur.ready.True?
      case ListingIps(_, _) => p.cur.pid != "" && p.cur.provisioned == Some(true) && p.cur.ready.True?
      case End(Finished) =>
        AwaitsBootstrap(p.orig, p.cur) || (p.cur.pid != "" && p.cur.provisioned == Some(true) && p.cur.ready.True?)
      case End(RequeueAfter10s) => p.cur.pid != "" && p.cur.ready.False?
      case _ => true
  }

  lemma OutcomeStep(s: State, e: Event)
    requires Inv(s) && OutcomeOk(s.proc) && Legal(s, e)
    ensures OutcomeOk(Apply(s, e).proc)
  {
    if e.InstanceView? {
      OutcomeOfView(s, e);
    } else if e.InstanceCreate? {
      OutcomeOfCreate(s, e);
    } else if e.Bootstrap? || e.InstanceStart? || e.NicList? || e.ExternalIpList? {
      OutcomeOfCall(s, e);
    } else {
      OutcomeElsewhere(s, e);
    }
  }

  lemma OutcomeOfView(s: State, e: Event)
    requires Inv(s) && OutcomeOk(s.proc) && Legal(s, e) && e.InstanceView?
    ensures OutcomeOk(Apply(s, e).proc)
  {
    if s.inst.Some? {
      ProviderId.PrintIsInjective(s.inst.value.id, "");
    }
  }

  lemma OutcomeOfCreate(s: State, e: Event)
    requires Inv(s) && OutcomeOk(s.proc) && Legal(s, e) && e.InstanceCreate?
    ensures OutcomeOk(Apply(s, e).proc)
  {
    ProviderId.PrintIsInjective(e.id, "");
  }

  lemma OutcomeOfCall(s: State, e: Event)
    requires Inv(s) && OutcomeOk(s.proc) && Legal(s, e)
    requires e.Bootstrap? || e.InstanceStart? || e.NicList? || e.ExternalIpList?
    ensures OutcomeOk(Apply(s, e).proc)
  {
  }

  lemma OutcomeElsewhere(s: State, e: Event)
    requires Inv(s) && OutcomeOk(s.proc) && Legal(s, e)
    requires !e.InstanceView? && !e.InstanceCreate?
    requires !(e.Bootstrap? || e.InstanceStart? || e.NicList? || e.ExternalIpList?)
    ensures OutcomeOk(Apply(s, e).proc)
  {
  }

  lemma {:induction false} OutcomeRun(s: State, log: seq<Event>)
    requires Init(s) && LegalRun(s, log)
    ensures Inv(After(s, log)) && OutcomeOk(After(s, log).proc)
  {
    if log == [] {
      InitInv(s);
    } else {
      OutcomeRun(s, log[..|log| - 1]);
      InvStep(After(s, log[..|log| - 1]), log[|log| - 1]);
      OutcomeStep(After(s, log[..|log| - 1]), log[|log| - 1]);
    }
  }

  /** In any run, whatever was lost before and whoever moves meanwhile: a reconcile of a live
      machine that ends without an error, and whose patch lands, leaves the finalizer and the
      provider ID of an instance of this machine on record, unless it still awaits its
      bootstrap data; if it asks for no requeue, the machine is provisioned and ready. */
  lemma ReconcileRecordsInstance(s: State, log: seq<Event>)
    requires Init(s) && LegalRun(s, log)
    requires var p := After(s, log).proc; p.Busy? && !p.orig.deleting && p.pc.End? && p.pc.verdict != Errored
    ensures var t := After(s, log);
            && Legal(t, Patch(true, true))
            && var u := Apply(t, Patch(true, true));
            u.obj.Some? ==>
              var o := u.obj.value;
              && o.fin
              && ((t.proc.pc.verdict.Finished? && AwaitsBootstrap(t.proc.orig, t.proc.cur) && o.pid == "")
                  || (o.pid != "" && Names(u.ids, o.pid)
                      && (if t.proc.pc.verdict.Finished? then o.provisioned == Some(true) && o.ready.True?
                          else o.ready.False?)))
  {
    OutcomeRun(s, log);
    InvStep(After(s, log), Patch(true, true));
    FinalizerInCopy(s, log);
    PatchWrites(After(s, log));
  }

  lemma PatchWrites(s: State)
    requires Inv(s) && s.proc.Busy? && s.proc.pc.End?
    ensures Legal(s, Patch(true, true))
    ensures var u := Apply(s, Patch(true, true)).obj;
            u.Some? ==> u.value.(deleting := s.proc.cur.deleting) == s.proc.cur
  {
  }

  predicate FinalizerKept(p: Proc) {
    p.Busy? && !p.orig.deleting && !(p.pc.End? && p.pc.verdict.Errored?) ==> p.cur.fin
  }

  lemma {:induction false} FinalizerInCopy(s: State, log: seq<Event>)
    requires Init(s) && LegalRun(s, log)
    ensures Inv(After(s, log)) && FinalizerKept(After(s, log).proc)
  {
    if log == [] {
      InitInv(s);
    } else {
      FinalizerInCopy(s, log[..|log| - 1]);
      InvStep(After(s, log[..|log| - 1]), log[|log| - 1]);
    }
  }

  // ---- A settled machine is left alone ----------------------------------------------------

  predicate Steady(s: State) {
    && s.obj.Some? && s.inst.Some? && s.inst.value.run.Running?
    && var o := s.obj.value;
    && o.fin && !o.deleting && o.pid != "" && o.provisioned == Some(true) && o.addrs != []
    && o.ready == True(ReadyReason(s.inst))
  }

  predicate SteadyProc(s: State) {
    s.proc.Busy? ==> Some(s.proc.orig) == s.obj && Some(s.proc.cur) == s.obj && (s.proc.pc.Begin? || s.proc.pc.End?)
  }

  /** Reconciling a running, fully recorded machine, with any failures and crashes, sends no
      mutating request and changes nothing. */
  lemma {:induction false} SteadyIsFixpoint(s: State, log: seq<Event>)
    requires Steady(s) && s.proc.Idle? && LegalRun(s, log)
    requires forall i :: 0 <= i < |log| ==> !IsEnvironment(log[i])
    ensures After(s, log).(proc := Idle) == s && SteadyProc(After(s, log))
    ensures forall i :: 0 <= i < |log| ==> !Builds(log[i]) && !Destroys(log[i])
  {
    if log != [] {
      var init := log[..|log| - 1];
      SteadyIsFixpoint(s, init);
      assert forall i :: 0 <= i < |init| ==> log[i] == init[i];
    }
  }
}
