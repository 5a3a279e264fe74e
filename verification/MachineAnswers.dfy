/** What the answers a machine's reconcile gets lead to, in terms of the cloud and without the
    automaton: what it may ask for, what it records, and when it ends. */
module MachineAnswers {
  import opened Basics
  import opened Cloud
  import opened MachineModel
  import opened MachineInvariants
  import opened MachineRuns
  import ProviderId

  /** Once a reconcile has come to its end, nothing of it follows but the patch. */
  lemma {:induction false} EndMakesNoCall(s: State, log: seq<Event>)
    requires s.proc.Busy? && s.proc.pc.End? && LegalRun(s, log) && SameReconcile(log, 0, |log|)
    ensures After(s, log).proc == s.proc
    ensures forall i :: 0 <= i < |log| ==> IsEnvironment(log[i])
  {
    if log != [] {
      var init := log[..|log| - 1];
      assert forall i :: 0 <= i < |init| ==> init[i] == log[i];
      EndMakesNoCall(s, init);
    }
  }

  /** The events of the log from `i` on, but for the first, are moves of users and the cloud. */
  predicate OnlyEnvironmentSince(log: seq<Event>, i: nat) {
    forall k :: i < k < |log| ==> IsEnvironment(log[k])
  }

  lemma BeginFollowsEnter(s: State, e: Event)
    requires Legal(s, e) && Apply(s, e).proc.Busy? && Apply(s, e).proc.pc.Begin?
    ensures e == Enter(true) || (IsEnvironment(e) && s.proc == Apply(s, e).proc)
  {
  }

  /** A reconcile at its beginning has made no call. */
  lemma {:induction false} NothingBeforeBootstrap(s: State, log: seq<Event>) returns (i: nat)
    requires s.proc.Idle? && LegalRun(s, log) && After(s, log).proc.Busy? && After(s, log).proc.pc.Begin?
    ensures i < |log| && log[i] == Enter(true) && OnlyEnvironmentSince(log, i)
  {
    var init, last := log[..|log| - 1], log[|log| - 1];
    BeginFollowsEnter(After(s, init), last);
    i := |log| - 1;
    if last != Enter(true) {
      i := NothingBeforeBootstrap(s, init);
      assert forall k :: 0 <= k < |init| ==> init[k] == log[k];
    }
  }

  lemma ReadyFollowsBootstrap(s: State, e: Event)
    requires Legal(s, e) && At(Apply(s, e), ReadyToCreate)
    ensures e == Bootstrap(Available) || (IsEnvironment(e) && At(s, ReadyToCreate))
  {
  }

  /** A reconcile about to create an instance has read its bootstrap data. */
  lemma {:induction false} ReadyAfterBootstrap(s: State, log: seq<Event>) returns (i: nat)
    requires s.proc.Idle? && LegalRun(s, log) && At(After(s, log), ReadyToCreate)
    ensures i < |log| && log[i] == Bootstrap(Available) && OnlyEnvironmentSince(log, i)
  {
    var init, last := log[..|log| - 1], log[|log| - 1];
    ReadyFollowsBootstrap(After(s, init), last);
    i := |log| - 1;
    if last != Bootstrap(Available) {
      i := ReadyAfterBootstrap(s, init);
      assert forall k :: 0 <= k < |init| ==> init[k] == log[k];
    }
  }

  /** In every run each create request follows, in the same reconcile, bootstrap data that was
      there and could be read, and nothing else of that reconcile comes in between. */
  lemma CreateIsJustified(s: State, log: seq<Event>) returns (i: nat)
    requires s.proc.Idle? && LegalRun(s, log) && log != [] && log[|log| - 1].InstanceCreate?
    ensures i < |log| - 1 && log[i] == Bootstrap(Available)
    ensures OnlyEnvironmentSince(log[..|log| - 1], i)
  {
    i := ReadyAfterBootstrap(s, log[..|log| - 1]);
  }

  /** In every run a reconcile whose bootstrap data is not set ends waiting for it, and one whose
      data cannot be read ends with an error, and neither makes any call to the cloud, from its
      start to its patch. */
  lemma BootstrapDecides(s: State, log: seq<Event>, data: BootstrapData, more: seq<Event>) returns (i: nat)
    requires s.proc.Idle? && LegalRun(s, log) && Legal(After(s, log), Bootstrap(data)) && !data.Available?
    requires var t := Apply(After(s, log), Bootstrap(data)); LegalRun(t, more) && SameReconcile(more, 0, |more|)
    ensures i < |log| && log[i] == Enter(true) && OnlyEnvironmentSince(log, i)
    ensures forall k :: 0 <= k < |more| ==> IsEnvironment(more[k])
    ensures var (orig, cur) := (After(s, log).proc.orig, After(s, log).proc.cur);
            After(Apply(After(s, log), Bootstrap(data)), more).proc ==
            if data.NotSet? then Busy(orig, cur.(ready := False(WaitingForBootstrapData)), End(Verdict.Finished))
            else Busy(orig, cur, End(Errored))
  {
    i := NothingBeforeBootstrap(s, log);
    EndMakesNoCall(Apply(After(s, log), Bootstrap(data)), more);
  }

  /** The service was reached and answered. */
  predicate Answered(e: Event) {
    match e
    case InstanceView(up) => up
    case InstanceCreate(d, _, _) => d.Served?
    case InstanceStart(d, _) => d.Served?
    case NicList(nics) => nics.Some?
    case ExternalIpList(ips) => ips.Some?
    case InstanceStop(d) => d.Served?
    case InstanceDelete(d, _) => d.Served?
    case DiskView(up) => up
    case DiskDelete(d) => d.Served?
    case _ => true
  }

  /** A request the cloud refuses, or an answer the controller cannot use. */
  predicate Refused(s: State, e: Event) {
    || (e.InstanceView? && s.inst.None? && !s.proc.Idle? && !s.proc.pc.DelView?)
    || (e.InstanceStart? && s.proc.Busy? && s.proc.pc.Starting? && !CanStart(s, s.proc.pc.instance.id))
    || (e.NicList? && e.nics.Some? && UnknownStack in e.nics.value)
    || (e.InstanceDelete? && s.inst.Some? && !CanDestroy(s))
    || (e.DiskDelete? && s.disk.Some? && !CanDeleteDisk(s))
  }

  /** A call that is not answered or refused ends the reconcile with an error; what it knows so
      far is kept. */
  lemma FailedCallEndsReconcile(s: State, e: Event)
    requires Legal(s, e) && IsCall(e) && (!Answered(e) || Refused(s, e))
    ensures Apply(s, e).proc == Busy(s.proc.orig, s.proc.cur, End(Errored))
  {
  }

  /** Without a client a reconcile does nothing. */
  lemma ClientlessReconcile(s: State, log: seq<Event>)
    requires s.proc.Idle? && s.obj.Some?
    ensures Legal(s, Enter(false))
    ensures LegalRun(Apply(s, Enter(false)), log) && SameReconcile(log, 0, |log|) ==>
              && After(Apply(s, Enter(false)), log).proc == Busy(s.obj.value, s.obj.value, End(Errored))
              && forall i :: 0 <= i < |log| ==> IsEnvironment(log[i])
  {
    if LegalRun(Apply(s, Enter(false)), log) && SameReconcile(log, 0, |log|) {
      EndMakesNoCall(Apply(s, Enter(false)), log);
    }
  }

  /** The reconcile does this next, if it does anything. */
  predicate Next(s: State, e: Event) {
    Legal(s, e) && IsCall(e)
  }

  /** Which call comes next at each point of a reconcile. It begins with the instance that is on
      record, or with bootstrap data to create one, and adopts only what is in the way of that. */
  lemma CallsFollow(s: State, e: Event)
    requires Next(s, e)
    ensures match s.proc.pc
            case Begin => if s.proc.cur.pid == "" then e.Bootstrap? else e.InstanceView?
            case ReadyToCreate => e.InstanceCreate?
            case Adopting => e.InstanceView?
            case Starting(_) => e.InstanceStart?
            case ListingNics(_) => e.NicList?
            case ListingIps(_, _) => e.ExternalIpList?
            case DelView => e.InstanceView?
            case DelSeen(i) => if i.run.Running? then e.InstanceStop? else e.InstanceDelete?
            case DelDisk => e.DiskView?
            case DelDiskSeen(_) => e.DiskDelete?
            case End(_) => false
  {
  }

  /** A boot disk seen detached or faulted is deleted, on one in any other state the deletion
      waits, making no more calls, and one that is gone ends it. */
  lemma DiskViewDecides(s: State, more: seq<Event>)
    requires At(s, DelDisk)
    ensures Legal(s, DiskView(true))
    ensures var t := Apply(s, DiskView(true));
            match s.disk
            case None => t.proc == Busy(s.proc.orig, s.proc.cur.(fin := false), End(Verdict.Finished))
            case Some(Detached) => forall e :: Next(t, e) <==> e.DiskDelete?
            case Some(Faulted) => forall e :: Next(t, e) <==> e.DiskDelete?
            case Some(_) =>
              && t.proc == Busy(s.proc.orig, s.proc.cur, End(RequeueAfter10s))
              && (LegalRun(t, more) && SameReconcile(more, 0, |more|) ==>
                    forall i :: 0 <= i < |more| ==> IsEnvironment(more[i]))
  {
    var t := Apply(s, DiskView(true));
    if t.proc.pc.End? && LegalRun(t, more) && SameReconcile(more, 0, |more|) {
      EndMakesNoCall(t, more);
    }
  }

  /** A deletion that is answered says in the Ready reason what it has seen of the instance. It
      stops a running one, destroys a stopped or failed one, waits on any other, and without one
      goes on to the disk. */
  lemma InstanceViewDecides(s: State)
    requires At(s, DelView)
    ensures Legal(s, InstanceView(true))
    ensures var (t, orig, cur) := (Apply(s, InstanceView(true)), s.proc.orig, s.proc.cur);
            match s.inst
            case None => t.proc == Busy(orig, cur.(ready := False(InstanceReason(None))), DelDisk)
            case Some(Instance(_, Running)) => forall e :: Next(t, e) <==> e.InstanceStop?
            case Some(Instance(_, Stopped)) => forall e :: Next(t, e) <==> e.InstanceDelete?
            case Some(Instance(_, Failed)) => forall e :: Next(t, e) <==> e.InstanceDelete?
            case Some(Instance(_, run)) =>
              t.proc == Busy(orig, cur.(ready := False(InstanceReason(Some(run)))), End(RequeueAfter10s))
  {
  }

  /** After its request a deletion waits, and says for what; if there was nothing left to stop or
      destroy, it goes on to the disk. */
  lemma RequestDecides(s: State, e: Event)
    requires Legal(s, e) && (e.InstanceStop? || e.InstanceDelete?) && e.delivery.Served? && !Refused(s, e)
    ensures var (t, orig, cur) := (Apply(s, e), s.proc.orig, s.proc.cur);
            if s.inst.None? then t.proc == Busy(orig, cur.(ready := False(InstanceReason(None))), DelDisk)
            else if e.InstanceStop? then
              t.inst.Some? &&
              t.proc == Busy(orig, cur.(ready := False(InstanceReason(Some(t.inst.value.run)))), End(RequeueAfter10s))
            else t.proc == Busy(orig, cur.(ready := False(InstanceReason(None))), End(RequeueAfter10s))
  {
  }

  /** A disk that could be deleted, or was gone by then, lets the finalizer go. */
  lemma DiskDeleteDecides(s: State, e: Event)
    requires Legal(s, e) && e.DiskDelete? && e.delivery.Served?
    requires s.disk.None? || s.disk == Some(Detached) || s.disk == Some(Faulted)
    ensures Apply(s, e).disk.None?
    ensures Apply(s, e).proc == Busy(s.proc.orig, s.proc.cur.(fin := false), End(Verdict.Finished))
  {
  }

  /** What a live machine's reconcile makes of the instance it was shown, or has created: it
      starts a stopped one and waits on any that does not run. */
  lemma InstanceDecides(s: State, e: Event)
    requires Legal(s, e) && Answered(e) && !Refused(s, e)
    requires (e.InstanceView? && !At(s, DelView)) || Creates(s, e)
    ensures var (i, orig, before) := (Apply(s, e).inst.value, s.proc.orig, s.proc.cur);
            var t := Apply(s, e);
            var o := if At(s, Begin) then before else before.(pid := ProviderId.NewProviderID(i.id));
            match i.run
            case Running =>
              var up := o.(provisioned := Some(true), ready := True(InstanceReason(Some(Running))));
              t.proc == Busy(orig, up, if o.addrs == [] then ListingNics(i) else End(Verdict.Finished))
            case Stopped =>
              t.proc.Busy? && t.proc.cur == o && forall f :: Next(t, f) <==> f.InstanceStart? && !f.run.Destroyed?
            case run => t.proc == Busy(orig, o.(ready := False(InstanceReason(Some(run)))), End(RequeueAfter10s))
  {
  }

  /** What of a reconcile each half of its patch writes. */
  lemma PatchHalves(s: State, specOk: bool, statusOk: bool)
    requires Inv(s) && s.proc.Busy? && s.proc.pc.End?
    ensures Legal(s, Patch(specOk, statusOk))
    ensures var u := Apply(s, Patch(specOk, statusOk)).obj;
            var spec := if specOk then s.proc.cur else s.proc.orig;
            var status := if statusOk then s.proc.cur else s.proc.orig;
            u.Some? ==>
              && u.value.fin == spec.fin && u.value.pid == spec.pid
              && u.value.provisioned == status.provisioned && u.value.addrs == status.addrs
              && u.value.ready == status.ready
  {
  }
}
