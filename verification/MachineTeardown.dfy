/** Deletion terminates: a rank that no step of a deletion raises, and a bound on the number of
    reconciles it takes. */
module MachineTeardown {
  import opened Basics
  import opened Cloud
  import opened MachineModel
  import opened MachineInvariants

  /** How far an instance is from being gone. */
  function InstRank(inst: Option<Instance>): nat {
    match inst
    case None => 0
    case Some(i) =>
      match i.run
      case Destroyed => 1
      case Stopped => 2
      case Failed => 2
      case Stopping => 3
      case _ => 4
  }

  function DiskRank(disk: Option<DiskState>): nat {
    if disk.None? then 0 else if disk.value.Detached? || disk.value.Faulted? then 1 else 2
  }

  /** The cloud and others make no step backwards: nobody restarts the instance, attaches the
      disk or makes new ones. They may stop and delete what is there. */
  predicate NoSetback(s: State, e: Event)
    requires Legal(s, e)
  {
    IsEnvironment(e) ==>
      var t := Apply(s, e);
      InstRank(t.inst) <= InstRank(s.inst) && DiskRank(t.disk) <= DiskRank(s.disk)
  }

  predicate NoSetbacks(s: State, log: seq<Event>)
    requires LegalRun(s, log)
  {
    log == [] ||
    var init := log[..|log| - 1];
    NoSetbacks(s, init) && NoSetback(After(s, init), log[|log| - 1])
  }

  // ---- A bound on effective requests, whatever fails --------------------------------------

  /** A stop, delete or disk delete request that changed something. */
  predicate TearsDown(s: State, e: Event)
    requires Legal(s, e)
  {
    (e.InstanceStop? || e.InstanceDelete? || e.DiskDelete?) &&
    (Apply(s, e).inst != s.inst || Apply(s, e).disk != s.disk)
  }

  function TeardownRequests(s: State, log: seq<Event>): nat
    requires LegalRun(s, log)
  {
    if log == [] then 0
    else
      var init := log[..|log| - 1];
      TeardownRequests(s, init) + (if TearsDown(After(s, init), log[|log| - 1]) then 1 else 0)
  }

  lemma RankStep(s: State, e: Event)
    requires Inv(s) && Tearing(s) && Legal(s, e) && NoSetback(s, e)
    ensures var t := Apply(s, e);
            && InstRank(t.inst) <= InstRank(s.inst) && DiskRank(t.disk) <= DiskRank(s.disk)
            && (TearsDown(s, e) ==> InstRank(t.inst) + DiskRank(t.disk) < InstRank(s.inst) + DiskRank(s.disk))
  {
  }

  /** A deletion that meets no setbacks never rises in rank, and its effective requests are
      bounded by how far down it has come, crashes and lost answers included. */
  lemma {:induction false} RankBoundsRequests(s: State, log: seq<Event>)
    requires Inv(s) && Tearing(s) && LegalRun(s, log) && NoSetbacks(s, log)
    ensures var t := After(s, log);
            && Inv(t) && Tearing(t)
            && InstRank(t.inst) <= InstRank(s.inst) && DiskRank(t.disk) <= DiskRank(s.disk)
            && TeardownRequests(s, log) + InstRank(t.inst) + DiskRank(t.disk) <= InstRank(s.inst) + DiskRank(s.disk)
  {
    if log != [] {
      var init, last := log[..|log| - 1], log[|log| - 1];
      RankBoundsRequests(s, init);
      InvStep(After(s, init), last);
      TearingStep(After(s, init), last);
      RankStep(After(s, init), last);
    }
  }

  // ---- A bound on reconciles, whatever fails ----------------------------------------------

  /** How many more reconciles the instance calls for: stop, delete, and remove the disk. */
  function PassesLeft(inst: Option<Instance>): nat {
    match inst
    case None => 1
    case Some(i) =>
      match i.run
      case Destroyed => 1
      case Stopped => 2
      case Failed => 2
      case Stopping => 2
      case _ => 3
  }

  predicate Waiting(s: State) {
    s.proc.Idle? && s.obj.Some? && s.obj.value.deleting
  }

  /** What a reconcile of a deletion knows of the instance and the disk. */
  predicate DeletionPcOk(s: State, cur: Obj, pc: Pc) {
    match pc
    case DelView => true
    case DelSeen(i) => (i.run.Running? || i.run.Stopped? || i.run.Failed?) && InstRank(s.inst) <= InstRank(Some(i))
    case DelDisk => s.inst.None?
    case DelDiskSeen(_) => s.inst.None?
    case End(verdict) => (verdict.Finished? <==> !cur.fin) && (!cur.fin ==> s.inst.None? && s.disk.None?)
    case _ => false
  }

  /** A deletion under way, or done. */
  predicate Deleting(s: State) {
    && Inv(s)
    && (s.obj.None? ==> s.inst.None? && s.disk.None? && s.proc.Idle?)
    && (s.obj.Some? ==> s.obj.value.deleting)
    && (s.proc.Busy? ==> s.proc.orig.deleting && s.proc.orig.fin && DeletionPcOk(s, s.proc.cur, s.proc.pc))
  }

  lemma DeletingStep(s: State, e: Event)
    requires Deleting(s) && Legal(s, e) && NoSetback(s, e)
    ensures Deleting(Apply(s, e))
  {
    InvStep(s, e);
    if e.UserDelete? || e.Enter? || e.Patch? || e.Crash? {
      DeletingBoundary(s, e);
    } else if IsEnvironment(e) {
      DeletingEnvironment(s, e);
    } else {
      DeletingCall(s, e);
    }
  }

  lemma DeletingBoundary(s: State, e: Event)
    requires Deleting(s) && Legal(s, e) && Inv(Apply(s, e)) && (e.UserDelete? || e.Enter? || e.Patch? || e.Crash?)
    ensures Deleting(Apply(s, e))
  {
  }

  lemma DeletingEnvironment(s: State, e: Event)
    requires Deleting(s) && Legal(s, e) && Inv(Apply(s, e))
    requires IsEnvironment(e) && !e.UserDelete? && NoSetback(s, e)
    ensures Deleting(Apply(s, e))
  {
  }

  lemma DeletingCall(s: State, e: Event)
    requires Deleting(s) && Legal(s, e) && Inv(Apply(s, e)) && IsCall(e)
    ensures Deleting(Apply(s, e))
  {
  }

  /** The last or current reconcile of the log had a stop or delete request answered. */
  predicate Requested(log: seq<Event>) {
    log != [] && RequestedAfter(Requested(log[..|log| - 1]), log[|log| - 1])
  }

  predicate RequestedAfter(before: bool, e: Event) {
    if e.Enter? || e.Patch? || e.Crash? then false
    else before || ((e.InstanceStop? || e.InstanceDelete?) && e.delivery.Served?)
  }

  /** A reconcile ends here that succeeded and did not just wait: it had a stop or delete
      request answered, or came to the end of the teardown, and its patch landed. */
  predicate Productive(s: State, requested: bool, e: Event)
    requires Legal(s, e)
  {
    && e.Patch? && e.specOk && e.statusOk
    && (s.proc.pc == End(Finished) || (s.proc.pc == End(RequeueAfter10s) && requested))
  }

  function ProductiveReconciles(s: State, log: seq<Event>): nat
    requires LegalRun(s, log)
  {
    if log == [] then 0
    else
      var init := log[..|log| - 1];
      ProductiveReconciles(s, init) + (if Productive(After(s, init), Requested(init), log[|log| - 1]) then 1 else 0)
  }

  /** An upper bound on the productive reconciles to come, the one in flight included. */
  function Potential(s: State, requested: bool): nat {
    if s.obj.None? then 0
    else if s.proc.Busy? && s.proc.pc.DelSeen? then PassesLeft(Some(s.proc.pc.instance))
    else PassesLeft(s.inst) + if requested then 1 else 0
  }

  /** A reconcile that had a request answered has nothing more to ask of the instance. */
  predicate PastInstance(p: Proc) {
    p.Busy? && !p.pc.DelView? && !p.pc.DelSeen?
  }

  lemma PotentialStep(s: State, requested: bool, e: Event)
    requires Deleting(s) && Legal(s, e) && NoSetback(s, e)
    requires requested ==> PastInstance(s.proc)
    ensures RequestedAfter(requested, e) ==> PastInstance(Apply(s, e).proc)
    ensures Potential(Apply(s, e), RequestedAfter(requested, e)) + (if Productive(s, requested, e) then 1 else 0) <=
            Potential(s, requested)
  {
    if IsCall(e) {
      PotentialAtCall(s, requested, e);
    } else {
      PotentialElsewhere(s, requested, e);
    }
  }

  lemma PotentialAtCall(s: State, requested: bool, e: Event)
    requires Deleting(s) && Legal(s, e) && NoSetback(s, e)
    requires requested ==> PastInstance(s.proc)
    requires IsCall(e)
    ensures RequestedAfter(requested, e) ==> PastInstance(Apply(s, e).proc)
    ensures Potential(Apply(s, e), RequestedAfter(requested, e)) + (if Productive(s, requested, e) then 1 else 0) <=
            Potential(s, requested)
  {
  }

  lemma PotentialElsewhere(s: State, requested: bool, e: Event)
    requires Deleting(s) && Legal(s, e) && NoSetback(s, e)
    requires requested ==> PastInstance(s.proc)
    requires !IsCall(e)
    ensures RequestedAfter(requested, e) ==> PastInstance(Apply(s, e).proc)
    ensures Potential(Apply(s, e), RequestedAfter(requested, e)) + (if Productive(s, requested, e) then 1 else 0) <=
            Potential(s, requested)
  {
  }

  lemma {:induction false} DeletionRun(s: State, log: seq<Event>)
    requires Inv(s) && Waiting(s) && LegalRun(s, log) && NoSetbacks(s, log)
    ensures var t := After(s, log);
            && Deleting(t) && (Requested(log) ==> PastInstance(t.proc))
            && ProductiveReconciles(s, log) + Potential(t, Requested(log)) <= PassesLeft(s.inst)
  {
    if log != [] {
      var init, last := log[..|log| - 1], log[|log| - 1];
      DeletionRun(s, init);
      DeletingStep(After(s, init), last);
      PotentialStep(After(s, init), Requested(init), last);
    }
  }

  lemma PotentialBoundsPasses(s: State, requested: bool)
    requires Deleting(s) && s.obj.Some?
    ensures 1 <= PassesLeft(s.inst) <= Potential(s, requested)
  {
  }

  /** Deletion terminates in every run without setbacks, whatever reconciles crash, whatever
      answers and patches get lost, and even if others stop and delete things as well: each
      productive reconcile takes the machine one stage down, so `PassesLeft` of them, three at
      most, are enough for the object, the instance and the boot disk to be gone. */
  lemma ProductiveReconcilesEndDeletion(s: State, log: seq<Event>)
    requires Inv(s) && Waiting(s) && LegalRun(s, log) && NoSetbacks(s, log)
    ensures PassesLeft(s.inst) <= 3
    ensures var t := After(s, log);
            && Deleting(t)
            && (t.obj.Some? ==> ProductiveReconciles(s, log) + PassesLeft(t.inst) <= PassesLeft(s.inst))
            && (ProductiveReconciles(s, log) >= PassesLeft(s.inst) ==> t.obj.None? && t.inst.None? && t.disk.None?)
  {
    DeletionRun(s, log);
    if After(s, log).obj.Some? {
      PotentialBoundsPasses(After(s, log), Requested(log));
    }
  }

  // ---- Undisturbed reconciles -------------------------------------------------------------

  /** The instance is not in between two states, nor is the disk once the instance is gone. */
  predicate Settled(s: State) {
    match s.inst
    case None => s.disk.None? || s.disk.value.Detached? || s.disk.value.Faulted?
    case Some(i) => i.run.Running? || i.run.Stopped? || i.run.Failed?
  }

  /** The calls of one undisturbed deletion reconcile. */
  function CleanPass(s: State): seq<Event>
    requires Waiting(s) && Settled(s)
  {
    [Enter(true), InstanceView(true)] + TeardownCalls(s) + [Patch(true, true)]
  }

  function TeardownCalls(s: State): seq<Event>
    requires Waiting(s) && Settled(s)
  {
    match s.inst
    case Some(i) => [RequestFor(i)]
    case None => [DiskView(true)] + if s.disk.Some? then [DiskDelete(Served)] else []
  }

  function RequestFor(i: Instance): Event {
    if i.run.Running? then InstanceStop(Served) else InstanceDelete(Served, false)
  }

  /** What an undisturbed reconcile achieves: a stop request, a delete request, or the end. */
  function PassResult(s: State, ready: Condition): State
    requires Waiting(s) && Settled(s)
  {
    match s.inst
    case None => s.(obj := None, disk := None)
    case Some(i) =>
      s.(obj := Some(s.obj.value.(ready := ready)),
         inst := Some(i.(run := if i.run.Running? then Stopping else Destroyed)))
  }

  lemma PassStarts(s: State) returns (t: State)
    requires Inv(s) && Waiting(s) && Settled(s)
    ensures LegalRun(s, [Enter(true), InstanceView(true)]) && t == After(s, [Enter(true), InstanceView(true)])
    ensures var o := s.obj.value;
            t == s.(proc := match s.inst
                            case Some(i) => Busy(o, o, DelSeen(i))
                            case None => OnInstanceAbsent(o, o))
  {
    var o := s.obj.value;
    assert Legal(s, Enter(true)) && Apply(s, Enter(true)) == s.(proc := Busy(o, o, DelView));
    TwoSteps(s, Enter(true), InstanceView(true));
    t := After(s, [Enter(true), InstanceView(true)]);
  }

  lemma PassOnInstance(s: State) returns (ready: Condition)
    requires Inv(s) && Waiting(s) && Settled(s) && s.inst.Some?
    ensures LegalRun(s, CleanPass(s)) && After(s, CleanPass(s)) == PassResult(s, ready)
  {
    var t := PassStarts(s);
    var start := [Enter(true), InstanceView(true)];
    var call := RequestFor(s.inst.value);
    ready := InstancePasses(t, call);
    Snoc(s, start, call);
    PassLands(s, start + [call], s.obj.value.(ready := ready), RequeueAfter10s);
  }

  lemma InstancePasses(s: State, call: Event) returns (ready: Condition)
    requires s.proc.Busy? && s.inst.Some? && s.proc.pc == DelSeen(s.inst.value)
    requires var run := s.inst.value.run; run.Running? || run.Stopped? || run.Failed?
    requires call == RequestFor(s.inst.value)
    ensures Legal(s, call)
    ensures Apply(s, call) ==
            s.(inst := Some(s.inst.value.(run := if s.inst.value.run.Running? then Stopping else Destroyed)),
               proc := Busy(s.proc.orig, s.proc.cur.(ready := ready), End(RequeueAfter10s)))
  {
    ready := Apply(s, call).proc.cur.ready;
  }

  lemma PassLands(s: State, log: seq<Event>, cur: Obj, verdict: Verdict)
    requires s.obj.Some? && cur.deleting == s.obj.value.deleting && cur.fin && LegalRun(s, log)
    requires After(s, log).obj == s.obj && After(s, log).proc == Busy(s.obj.value, cur, End(verdict))
    ensures LegalRun(s, log + [Patch(true, true)])
    ensures After(s, log + [Patch(true, true)]) == After(s, log).(proc := Idle, obj := Some(cur))
  {
    WholePatchCopies(s.obj.value, cur);
    var t := After(s, log);
    assert Legal(t, Patch(true, true)) && Apply(t, Patch(true, true)) == t.(proc := Idle, obj := Some(cur));
    Snoc(s, log, Patch(true, true));
  }

  lemma PassOnDisk(s: State)
    requires Inv(s) && Waiting(s) && Settled(s) && s.inst.None?
    ensures LegalRun(s, CleanPass(s)) && After(s, CleanPass(s)) == PassResult(s, Unset)
  {
    var log := PassToDisk(s);
    PassEnds(s, log);
  }

  lemma PassToDisk(s: State) returns (log: seq<Event>)
    requires Inv(s) && Waiting(s) && Settled(s) && s.inst.None?
    ensures log == [Enter(true), InstanceView(true)] + TeardownCalls(s)
    ensures LegalRun(s, log)
    ensures var t := After(s, log);
            && t.(proc := Idle) == s.(disk := None, proc := Idle) && At(t, End(Finished))
            && t.proc.orig == s.obj.value && !t.proc.cur.fin
  {
    var t := PassStarts(s);
    var start := [Enter(true), InstanceView(true)];
    Snoc(s, start, DiskView(true));
    log := start + [DiskView(true)];
    if s.disk.Some? {
      DiskPasses(After(s, log));
      Snoc(s, log, DiskDelete(Served));
      log := log + [DiskDelete(Served)];
      assert log == start + ([DiskView(true)] + [DiskDelete(Served)]);
    } else {
      assert log == start + ([DiskView(true)] + []);
    }
  }

  lemma DiskPasses(s: State)
    requires s.proc.Busy? && s.proc.pc.DelDiskSeen? && CanDeleteDisk(s)
    ensures Legal(s, DiskDelete(Served))
    ensures Apply(s, DiskDelete(Served)) == s.(disk := None, proc := OnAllGone(s.proc.orig, s.proc.cur))
  {
  }

  lemma PassEnds(s: State, log: seq<Event>)
    requires Inv(s) && Waiting(s) && LegalRun(s, log)
    requires var t := After(s, log);
             t.(proc := Idle) == s.(disk := None) && t.proc.Busy? && t.proc.pc.End? &&
             t.proc.orig == s.obj.value && !t.proc.cur.fin
    ensures LegalRun(s, log + [Patch(true, true)])
    ensures After(s, log + [Patch(true, true)]) == s.(obj := None, disk := None)
  {
    Snoc(s, log, Patch(true, true));
  }

  /** An undisturbed reconcile that finds things settled is productive. */
  lemma SettledPassIsProductive(s: State)
    requires Inv(s) && Waiting(s) && Settled(s)
    ensures LegalRun(s, CleanPass(s)) && ProductiveReconciles(s, CleanPass(s)) >= 1
  {
    if s.inst.Some? {
      var ready := PassOnInstance(s);
      RequestIsProductive(s);
    } else {
      PassOnDisk(s);
      var log := PassToDisk(s);
      assert CleanPass(s)[..|CleanPass(s)| - 1] == log;
      assert Productive(After(s, log), Requested(log), Patch(true, true));
    }
  }

  lemma RequestIsProductive(s: State)
    requires Inv(s) && Waiting(s) && Settled(s) && s.inst.Some? && LegalRun(s, CleanPass(s))
    ensures ProductiveReconciles(s, CleanPass(s)) >= 1
  {
    var t := PassStarts(s);
    var start := [Enter(true), InstanceView(true)];
    var call := RequestFor(s.inst.value);
    var ready := InstancePasses(t, call);
    Snoc(s, start, call);
    var log := start + [call];
    assert CleanPass(s)[..|CleanPass(s)| - 1] == log && log[..|log| - 1] == start;
    assert Requested(log);
    assert Productive(After(s, log), Requested(log), Patch(true, true));
  }

  /** A stretch of a deletion between undisturbed reconciles: anything may happen in it, with
      reconciles that fail or crash, but no setbacks, and by its end things are settled. */
  predicate Stretch(s: State, log: seq<Event>) {
    && LegalRun(s, log)
    && NoSetbacks(s, log)
    && After(s, log).proc.Idle?
    && (After(s, log).obj.Some? ==> Settled(After(s, log)))
  }

  /** Stretches and undisturbed reconciles in turn, until the object is gone. */
  ghost predicate Rounds(s: State, stretches: seq<seq<Event>>, t: State)
    decreases |stretches|
  {
    if stretches == [] || s.obj.None? then s == t
    else
      && Waiting(s) && Stretch(s, stretches[0])
      && var u := After(s, stretches[0]);
      if u.obj.None? then u == t
      else
        && Waiting(u) && LegalRun(u, CleanPass(u))
        && Rounds(After(u, CleanPass(u)), stretches[1..], t)
  }

  /** After a stretch the next undisturbed reconcile is always possible, and brings the end one
      reconcile closer. */
  lemma RoundMakesProgress(s: State, stretch: seq<Event>)
    requires Inv(s) && Waiting(s) && Stretch(s, stretch)
    ensures var u := After(s, stretch);
            && (u.obj.None? ==> u.inst.None? && u.disk.None?)
            && (u.obj.Some? ==>
                  && Waiting(u) && LegalRun(u, CleanPass(u))
                  && var t := After(u, CleanPass(u));
                  && Inv(t)
                  && (t.obj.Some? ==> Waiting(t) && PassesLeft(t.inst) < PassesLeft(s.inst))
                  && (t.obj.None? ==> t.inst.None? && t.disk.None?))
  {
    ProductiveReconcilesEndDeletion(s, stretch);
    if After(s, stretch).obj.Some? {
      CleanPassProgresses(After(s, stretch));
    }
  }

  lemma CleanPassProgresses(s: State)
    requires Inv(s) && Waiting(s) && Settled(s)
    ensures LegalRun(s, CleanPass(s))
    ensures var t := After(s, CleanPass(s));
            && Inv(t)
            && (t.obj.Some? ==> Waiting(t) && PassesLeft(t.inst) < PassesLeft(s.inst))
            && (t.obj.None? ==> t.inst.None? && t.disk.None?)
  {
    if s.inst.Some? {
      var ready := PassOnInstance(s);
    } else {
      PassOnDisk(s);
    }
    InvRun(s, CleanPass(s));
  }

  lemma FirstRound(s: State, stretches: seq<seq<Event>>, t: State) returns (v: State)
    requires Inv(s) && Waiting(s) && Rounds(s, stretches, t) && stretches != []
    ensures Inv(v) && (if v.obj.None? then t == v else Rounds(v, stretches[1..], t))
    ensures v.obj.Some? ==> Waiting(v) && PassesLeft(v.inst) < PassesLeft(s.inst)
    ensures v.obj.None? ==> v.inst.None? && v.disk.None?
  {
    RoundMakesProgress(s, stretches[0]);
    var u := After(s, stretches[0]);
    if u.obj.None? {
      InvRun(s, stretches[0]);
      v := u;
    } else {
      v := After(u, CleanPass(u));
    }
  }

  /** However long the stretches and whatever fails in them, three undisturbed reconciles that
      find things settled are enough: after `PassesLeft` of them the object, the instance and
      the boot disk are gone. */
  lemma {:induction false} DeletionTerminates(s: State, stretches: seq<seq<Event>>, t: State)
    requires Inv(s) && Waiting(s) && Rounds(s, stretches, t)
    ensures PassesLeft(s.inst) <= 3
    ensures |stretches| >= PassesLeft(s.inst) ==> t.obj.None? && t.inst.None? && t.disk.None?
    decreases |stretches|
  {
    if stretches != [] {
      var v := FirstRound(s, stretches, t);
      if v.obj.Some? {
        DeletionTerminates(v, stretches[1..], t);
      }
    }
  }

  /** The simplest stretch is a wait, in which only users and the cloud move. */
  lemma {:induction false} WaitIsStretch(s: State, log: seq<Event>)
    requires Inv(s) && Waiting(s) && LegalRun(s, log) && NoSetbacks(s, log)
    requires forall i :: 0 <= i < |log| ==> IsEnvironment(log[i])
    ensures var t := After(s, log); Inv(t) && Waiting(t) && (Settled(t) ==> Stretch(s, log))
  {
    if log != [] {
      var init, last := log[..|log| - 1], log[|log| - 1];
      WaitIsStretch(s, init);
      InvStep(After(s, init), last);
    }
  }
}
