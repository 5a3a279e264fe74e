/** Where the floating IP should be: the decision taken from one list of machines and the
    instance that holds the IP. */
module Attachment {
  import opened Basics
  import ProviderId

  /** A control plane machine as the list request shows it. */
  datatype MachineView = MachineView(pid: string, provisioned: Option<bool>, deleting: bool)

  /** What to do. A move detaches the IP from its holder, if there is one, and attaches it to
      the target, if there is one. */
  datatype Choice = BadProviderId | Stay | Move(target: string)

  /** Verdict of the UUID library, which is not part of this model. */
  type UuidCheck = string -> bool

  function IdOf(valid: UuidCheck, m: MachineView): Result<string, ProviderId.ParseError> {
    ProviderId.InstanceIDFromProviderID(valid, m.pid)
  }

  /** A machine the IP may be moved to. */
  predicate Candidate(m: MachineView) {
    m.pid != "" && m.provisioned == Some(true) && !m.deleting
  }

  predicate Unreadable(valid: UuidCheck, m: MachineView) {
    m.pid != "" && IdOf(valid, m).Failure?
  }

  predicate Matches(valid: UuidCheck, m: MachineView, holder: string) {
    m.pid != "" && IdOf(valid, m) == Success(holder)
  }

  /** Index of the first candidate, or the length of the list. */
  function FirstCandidate(ms: seq<MachineView>): (i: nat)
    ensures i <= |ms| && (i < |ms| ==> Candidate(ms[i]))
    ensures forall k :: 0 <= k < i ==> !Candidate(ms[k])
  {
    if ms == [] then 0
    else if Candidate(ms[0]) then 0
    else
      var i := FirstCandidate(ms[1..]);
      assert forall k :: 1 <= k < |ms| ==> ms[k] == ms[1..][k - 1];
      i + 1
  }

  /** Index where the holder scan ends: at a match, at an unreadable provider ID, or nowhere. */
  function ScanEnd(valid: UuidCheck, ms: seq<MachineView>, holder: string): (i: nat)
    ensures i <= |ms|
    ensures i < |ms| ==> Unreadable(valid, ms[i]) || Matches(valid, ms[i], holder)
    ensures forall k :: 0 <= k < i ==> !Unreadable(valid, ms[k]) && !Matches(valid, ms[k], holder)
  {
    if ms == [] then 0
    else if Unreadable(valid, ms[0]) || Matches(valid, ms[0], holder) then 0
    else
      var i := ScanEnd(valid, ms[1..], holder);
      assert forall k :: 1 <= k < |ms| ==> ms[k] == ms[1..][k - 1];
      i + 1
  }

  /** The id the first scan ends with, "" if there is no candidate. */
  function TargetId(valid: UuidCheck, ms: seq<MachineView>): Result<string, ProviderId.ParseError> {
    var c := FirstCandidate(ms);
    if c < |ms| then IdOf(valid, ms[c]) else Success("")
  }

  function Decide(valid: UuidCheck, ms: seq<MachineView>, holder: string): Choice {
    match TargetId(valid, ms)
    case Failure(_) => BadProviderId
    case Success(target) =>
      if holder == "" then Move(target)
      else
        var k := ScanEnd(valid, ms, holder);
        if k == |ms| then Move(target)
        else if Unreadable(valid, ms[k]) then BadProviderId
        else if ms[k].deleting && target != "" then Move(target)
        else Stay
  }

  // ---- The decision, said without scans ---------------------------------------------------

  predicate Readable(valid: UuidCheck, ms: seq<MachineView>) {
    forall k :: 0 <= k < |ms| ==> !Unreadable(valid, ms[k])
  }

  predicate HasCandidate(ms: seq<MachineView>) {
    exists k :: 0 <= k < |ms| && Candidate(ms[k])
  }

  /** `k` is the first machine of the list with this instance. */
  predicate FirstMatch(valid: UuidCheck, ms: seq<MachineView>, holder: string, k: nat) {
    k < |ms| && Matches(valid, ms[k], holder) && forall j :: 0 <= j < k ==> !Matches(valid, ms[j], holder)
  }

  /** `t` is the instance of the first candidate, or "" when there is none. */
  predicate IsTarget(valid: UuidCheck, ms: seq<MachineView>, t: string) {
    if HasCandidate(ms)
    then exists c :: 0 <= c < |ms| && Candidate(ms[c]) && Matches(valid, ms[c], t) &&
             forall j :: 0 <= j < c ==> !Candidate(ms[j])
    else t == ""
  }

  /** An own machine holds the IP, and it is live or there is nowhere to move it. */
  ghost predicate WellPlaced(valid: UuidCheck, ms: seq<MachineView>, holder: string) {
    holder != "" && exists k: nat :: FirstMatch(valid, ms, holder, k) && (!ms[k].deleting || !HasCandidate(ms))
  }

  /** Ids the UUID library accepts are never empty. */
  predicate SaneUuids(valid: UuidCheck) {
    !valid("")
  }

  /** With readable provider IDs the two scans leave the IP where it is exactly when it is well
      placed, and otherwise move it to the first candidate, or to nothing if there is none. */
  lemma DecideIsSpec(valid: UuidCheck, ms: seq<MachineView>, holder: string)
    requires SaneUuids(valid) && Readable(valid, ms)
    ensures Decide(valid, ms, holder) == Stay <==> WellPlaced(valid, ms, holder)
    ensures forall t :: Decide(valid, ms, holder) == Move(t) <==>
            !WellPlaced(valid, ms, holder) && IsTarget(valid, ms, t)
  {
    var c, k := FirstCandidate(ms), ScanEnd(valid, ms, holder);
    if c < |ms| {
      assert !Unreadable(valid, ms[c]);
      var id := IdOf(valid, ms[c]).value;
      ProviderId.ParseInvertsPrint(valid, ms[c].pid, id);
      assert id != "" && Matches(valid, ms[c], id);
    }
    if k < |ms| {
      assert !Unreadable(valid, ms[k]);
      assert FirstMatch(valid, ms, holder, k);
    }
  }

  /** Exactly when one provider ID blocks the whole attachment: it belongs to the first
      candidate, or the holder scan gets to it before a match. */
  lemma BlockedIff(valid: UuidCheck, ms: seq<MachineView>, holder: string)
    ensures Decide(valid, ms, holder) == BadProviderId <==>
            exists k :: 0 <= k < |ms| && Unreadable(valid, ms[k]) &&
              (k == FirstCandidate(ms) || (holder != "" && forall j :: 0 <= j < k ==> !Matches(valid, ms[j], holder)))
  {
    var c, e := FirstCandidate(ms), ScanEnd(valid, ms, holder);
    if Decide(valid, ms, holder) == BadProviderId {
      if c < |ms| && Unreadable(valid, ms[c]) {
      } else {
        assert Unreadable(valid, ms[e]);
      }
    }
  }

  // ---- After a move -----------------------------------------------------------------------

  /** The holder once the calls the decision asks for have succeeded. */
  function FinalHolder(choice: Choice, holder: string): string {
    if choice.Move? then choice.target else holder
  }

  /** Nothing to call. */
  predicate Quiet(choice: Choice, holder: string) {
    choice.Stay? || (choice == Move("") && holder == "")
  }

  ghost predicate DistinctIds(valid: UuidCheck, ms: seq<MachineView>) {
    forall i, j, id :: 0 <= i < |ms| && 0 <= j < |ms| && Matches(valid, ms[i], id) && Matches(valid, ms[j], id) ==>
      i == j
  }

  /** The first machine with the target's instance is not the target but one being deleted. */
  ghost predicate Shadowed(valid: UuidCheck, ms: seq<MachineView>) {
    HasCandidate(ms) && exists t, k: nat :: IsTarget(valid, ms, t) && FirstMatch(valid, ms, t, k) && ms[k].deleting
  }

  /** A successful attachment is left alone by the next reconcile, unless the target shares its
      instance with a deleting machine earlier in the list: then it is detached and attached
      again by every reconcile. Distinct provider IDs rule that out. */
  lemma SettlesIff(valid: UuidCheck, ms: seq<MachineView>, holder: string)
    requires SaneUuids(valid) && Readable(valid, ms) && !WellPlaced(valid, ms, holder)
    ensures var f := FinalHolder(Decide(valid, ms, holder), holder);
            && (Quiet(Decide(valid, ms, f), f) <==> !Shadowed(valid, ms))
            && (Shadowed(valid, ms) ==> Decide(valid, ms, f) == Move(f))
    ensures DistinctIds(valid, ms) ==> !Shadowed(valid, ms)
  {
    var choice := Decide(valid, ms, holder);
    DecideIsSpec(valid, ms, holder);
    var f := FinalHolder(choice, holder);
    assert IsTarget(valid, ms, f) by {
      assert choice.Move?;
    }
    DecideIsSpec(valid, ms, f);
    var c, k := FirstCandidate(ms), ScanEnd(valid, ms, f);
    if HasCandidate(ms) {
      var c' :| 0 <= c' < |ms| && Candidate(ms[c']) && Matches(valid, ms[c'], f) &&
        forall j :: 0 <= j < c' ==> !Candidate(ms[j]);
      assert c' == c;
      assert k <= c && FirstMatch(valid, ms, f, k);
      ProviderId.ParseInvertsPrint(valid, ms[c].pid, f);
      TargetIsUnique(valid, ms, f);
    }
  }

  lemma TargetIsUnique(valid: UuidCheck, ms: seq<MachineView>, t: string)
    requires HasCandidate(ms) && IsTarget(valid, ms, t)
    ensures forall u :: IsTarget(valid, ms, u) ==> u == t
  {
    var c := FirstCandidate(ms);
    forall u | IsTarget(valid, ms, u)
      ensures u == t
    {
      assert Matches(valid, ms[c], u) && Matches(valid, ms[c], t);
    }
  }

  // ---- The decision in so many words ------------------------------------------------------

  /** Not a machine to move the IP to. */
  predicate Unfit(m: MachineView) {
    m.pid == "" || m.provisioned != Some(true) || m.deleting
  }

  /** `ms[k]` is the first machine to move the IP to, with instance `id`. */
  predicate FirstFit(valid: UuidCheck, ms: seq<MachineView>, k: nat, id: string) {
    && k < |ms| && !Unfit(ms[k]) && ms[k].pid == "oxide://" + id && valid(id)
    && forall j :: 0 <= j < k ==> Unfit(ms[j])
  }

  /** The provider ID is that of another instance. */
  ghost predicate ReadsOther(valid: UuidCheck, pid: string, holder: string) {
    exists id :: pid == "oxide://" + id && valid(id) && id != holder
  }

  /** `ms[h]` holds the IP, and the machines before it have no provider ID or other instances. */
  ghost predicate HeldBy(valid: UuidCheck, ms: seq<MachineView>, h: nat, holder: string) {
    && h < |ms| && ms[h].pid == "oxide://" + holder && valid(holder)
    && forall j :: 0 <= j < h ==> ms[j].pid == "" || ReadsOther(valid, ms[j].pid, holder)
  }

  /** An unattached IP goes to the first machine that has a provider ID, is provisioned and not
      being deleted, whatever else is in the list. */
  lemma FreeIpGoesToFirstFit(valid: UuidCheck, ms: seq<MachineView>, k: nat, id: string)
    requires FirstFit(valid, ms, k, id)
    ensures Decide(valid, ms, "") == Move(id)
  {
    ProviderId.ParseInvertsPrint(valid, ms[k].pid, id);
    ProviderId.PrintIsInjective(id, id);
    assert FirstCandidate(ms) == k;
  }

  /** An IP stays on a machine that is not being deleted, and moves from one that is to the first
      fit one. */
  lemma HeldIpStaysOrMoves(valid: UuidCheck, ms: seq<MachineView>, h: nat, holder: string, k: nat, id: string)
    requires SaneUuids(valid) && HeldBy(valid, ms, h, holder) && FirstFit(valid, ms, k, id)
    ensures Decide(valid, ms, holder) == if ms[h].deleting then Move(id) else Stay
  {
    FreeIpGoesToFirstFit(valid, ms, k, id);
    ProviderId.ParseInvertsPrint(valid, ms[h].pid, holder);
    assert ScanEnd(valid, ms, holder) == h;
  }

  /** Without a fit machine it stays where it is, draining or not. */
  lemma HeldIpIsKept(valid: UuidCheck, ms: seq<MachineView>, h: nat, holder: string)
    requires SaneUuids(valid) && HeldBy(valid, ms, h, holder) && forall j :: 0 <= j < |ms| ==> Unfit(ms[j])
    ensures Decide(valid, ms, holder) == Stay
  {
    ProviderId.ParseInvertsPrint(valid, ms[h].pid, holder);
    assert ScanEnd(valid, ms, holder) == h;
  }

  /** If one of the listed machines holds the IP, draining or not, the decision never leaves it
      unattached. */
  lemma NeverAbandoned(valid: UuidCheck, ms: seq<MachineView>, holder: string)
    requires SaneUuids(valid) && holder != ""
    requires exists k :: 0 <= k < |ms| && Matches(valid, ms[k], holder)
    ensures FinalHolder(Decide(valid, ms, holder), holder) != ""
  {
  }

  /** A decision taken with a candidate in the list never leaves the IP unattached. */
  lemma CandidateMeansAttached(valid: UuidCheck, ms: seq<MachineView>, holder: string)
    requires SaneUuids(valid) && HasCandidate(ms) && Decide(valid, ms, holder) != BadProviderId
    ensures FinalHolder(Decide(valid, ms, holder), holder) != ""
  {
    var c := FirstCandidate(ms);
    assert c < |ms|;
    ProviderId.ParseInvertsPrint(valid, ms[c].pid, IdOf(valid, ms[c]).value);
  }

  /** Such a decision puts the IP on a machine that is not being deleted, if none shadows it. */
  lemma CandidateMeansWellPlaced(valid: UuidCheck, ms: seq<MachineView>, holder: string)
    requires SaneUuids(valid) && HasCandidate(ms) && !Shadowed(valid, ms)
    requires Decide(valid, ms, holder) != BadProviderId
    ensures WellPlaced(valid, ms, FinalHolder(Decide(valid, ms, holder), holder))
  {
    var f := FinalHolder(Decide(valid, ms, holder), holder);
    CandidateMeansAttached(valid, ms, holder);
    if Decide(valid, ms, holder).Move? {
      var c := FirstCandidate(ms);
      assert Matches(valid, ms[c], f) && IsTarget(valid, ms, f);
      var k := FirstMatchUpTo(valid, ms, f, c);
    } else {
      assert FirstMatch(valid, ms, f, ScanEnd(valid, ms, f));
      var c := FirstCandidate(ms);
      ProviderId.ParseInvertsPrint(valid, ms[c].pid, IdOf(valid, ms[c]).value);
    }
  }

  lemma FirstMatchUpTo(valid: UuidCheck, ms: seq<MachineView>, holder: string, c: nat) returns (k: nat)
    requires c < |ms| && Matches(valid, ms[c], holder)
    ensures k <= c && FirstMatch(valid, ms, holder, k)
  {
    k := 0;
    while !Matches(valid, ms[k], holder)
      invariant k <= c && forall j :: 0 <= j < k ==> !Matches(valid, ms[j], holder)
      decreases c - k
    {
      k := k + 1;
    }
  }

  /** Makes no call: there is nothing to do, or an unreadable provider ID is in the way. */
  predicate Passive(choice: Choice, holder: string) {
    Quiet(choice, holder) || choice == BadProviderId
  }

  /** Where a decision puts the IP, the next one leaves it, if no machine shadows the target. */
  lemma DecisionSettles(valid: UuidCheck, ms: seq<MachineView>, holder: string)
    requires SaneUuids(valid) && !Shadowed(valid, ms)
    ensures var f := FinalHolder(Decide(valid, ms, holder), holder); Passive(Decide(valid, ms, f), f)
  {
    var choice := Decide(valid, ms, holder);
    var f := FinalHolder(choice, holder);
    if choice.Move? && Decide(valid, ms, f).Move? && HasCandidate(ms) {
      var c, k := FirstCandidate(ms), ScanEnd(valid, ms, f);
      CandidateMeansAttached(valid, ms, holder);
      assert Matches(valid, ms[c], f) && IsTarget(valid, ms, f);
      assert FirstMatch(valid, ms, f, k);
    }
  }

  /** A deleting and a live machine that recorded the same instance: the live one is shadowed,
      and each decision moves the IP from the instance to itself. */
  lemma SharedInstanceIsShadowed(valid: UuidCheck, id: string)
    requires SaneUuids(valid) && valid(id)
    ensures var pid := ProviderId.NewProviderID(id);
            var ms := [MachineView(pid, Some(true), true), MachineView(pid, Some(true), false)];
            Readable(valid, ms) && Shadowed(valid, ms) && Decide(valid, ms, id) == Move(id)
  {
    var pid := ProviderId.NewProviderID(id);
    var ms := [MachineView(pid, Some(true), true), MachineView(pid, Some(true), false)];
    ProviderId.ParseInvertsPrint(valid, pid, id);
    ProviderId.PrintIsInjective(id, id);
    assert Matches(valid, ms[0], id) && Matches(valid, ms[1], id) && Candidate(ms[1]);
    assert FirstMatch(valid, ms, id, 0) && IsTarget(valid, ms, id);
    assert FirstCandidate(ms) == 1 && ScanEnd(valid, ms, id) == 0;
  }
}
