/** How a machine's address list is read off its network interfaces and external IPs. */
module Addresses {
  import opened Basics
  import opened Cloud

  /** The addresses of one interface, IPv4 before IPv6; none for an unknown stack. */
  function OfStack(stack: IpStack): seq<Address> {
    match stack
    case V4(ip) => [InternalIP(ip)]
    case V6(ip) => [InternalIP(ip)]
    case DualStack(ip4, ip6) => [InternalIP(ip4), InternalIP(ip6)]
    case UnknownStack => []
  }

  function OfStacks(nics: seq<IpStack>): seq<Address> {
    if nics == [] then [] else OfStacks(nics[..|nics| - 1]) + OfStack(nics[|nics| - 1])
  }

  function OfExternal(ips: seq<ExternalIp>): seq<Address> {
    if ips == [] then []
    else OfExternal(ips[..|ips| - 1]) + (if ips[|ips| - 1].Ephemeral? then [ExternalIP(ips[|ips| - 1].ip)] else [])
  }

  /** What `machineAddressesFromNICs` answers: an error as soon as one stack is unknown. */
  function FromNics(nics: seq<IpStack>): Option<seq<Address>> {
    if UnknownStack in nics then None else Some(OfStacks(nics))
  }

  method MachineAddressesFromNICs(nics: seq<IpStack>) returns (r: Option<seq<Address>>)
    ensures r == FromNics(nics)
    ensures r.Some? <==> UnknownStack !in nics
    ensures r.Some? ==> InOrder(nics, r.value)
  {
    var addresses: seq<Address> := [];
    for i := 0 to |nics|
      invariant UnknownStack !in nics[..i]
      invariant addresses == OfStacks(nics[..i])
    {
      var nic := nics[i];
      assert nics[..i + 1] == nics[..i] + [nic];
      if nic.V4? {
        addresses := addresses + [InternalIP(nic.v4)];
        continue;
      }
      if nic.V6? {
        addresses := addresses + [InternalIP(nic.v6)];
        continue;
      }
      if nic.DualStack? {
        addresses := addresses + [InternalIP(nic.dual4), InternalIP(nic.dual6)];
        continue;
      }
      return None;
    }
    assert nics[..|nics|] == nics;
    StacksInOrder(nics);
    return Some(addresses);
  }

  method MachineAddressesFromIPs(ips: seq<ExternalIp>) returns (addresses: seq<Address>)
    ensures addresses == OfExternal(ips)
    ensures EphemeralInOrder(ips, addresses)
  {
    addresses := [];
    for i := 0 to |ips|
      invariant addresses == OfExternal(ips[..i])
    {
      assert ips[..i + 1] == ips[..i] + [ips[i]];
      if ips[i].Ephemeral? {
        addresses := addresses + [ExternalIP(ips[i].ip)];
      }
    }
    assert ips[..|ips|] == ips;
    ExternalInOrder(ips);
  }

  // ---- Every address at its place ---------------------------------------------------------

  /** How many addresses an interface has. */
  function Width(stack: IpStack): nat {
    if stack.UnknownStack? then 0 else if stack.DualStack? then 2 else 1
  }

  function Widths(nics: seq<IpStack>): nat {
    if nics == [] then 0 else Widths(nics[..|nics| - 1]) + Width(nics[|nics| - 1])
  }

  /** The addresses of an interface stand from `k` on: for a dual stack the IPv4 address, and right
      after it the IPv6 one. */
  predicate StandsAt(stack: IpStack, addresses: seq<Address>, k: nat) {
    k + Width(stack) <= |addresses| &&
    match stack
    case V4(ip) => addresses[k] == InternalIP(ip)
    case V6(ip) => addresses[k] == InternalIP(ip)
    case DualStack(ip4, ip6) => addresses[k] == InternalIP(ip4) && addresses[k + 1] == InternalIP(ip6)
    case UnknownStack => true
  }

  /** Each interface has its addresses right after those of the interfaces before it, and there
      are no others. */
  predicate InOrder(nics: seq<IpStack>, addresses: seq<Address>) {
    |addresses| == Widths(nics) &&
    forall i :: 0 <= i < |nics| ==> StandsAt(nics[i], addresses, Widths(nics[..i]))
  }

  lemma {:induction false} StacksInOrder(nics: seq<IpStack>)
    ensures InOrder(nics, OfStacks(nics))
  {
    if nics != [] {
      var init, last := nics[..|nics| - 1], nics[|nics| - 1];
      StacksInOrder(init);
      forall i | 0 <= i < |nics|
        ensures StandsAt(nics[i], OfStacks(nics), Widths(nics[..i]))
      {
        if i < |init| {
          assert init[..i] == nics[..i] && StandsAt(init[i], OfStacks(init), Widths(init[..i]));
        }
      }
    }
  }

  function Ephemerals(ips: seq<ExternalIp>): nat {
    if ips == [] then 0 else Ephemerals(ips[..|ips| - 1]) + (if ips[|ips| - 1].Ephemeral? then 1 else 0)
  }

  /** The ephemeral IPs, each once and in order, and no others. */
  predicate EphemeralInOrder(ips: seq<ExternalIp>, addresses: seq<Address>) {
    |addresses| == Ephemerals(ips) &&
    forall i :: 0 <= i < |ips| && ips[i].Ephemeral? ==>
      Ephemerals(ips[..i]) < |addresses| && addresses[Ephemerals(ips[..i])] == ExternalIP(ips[i].ip)
  }

  lemma {:induction false} ExternalInOrder(ips: seq<ExternalIp>)
    ensures EphemeralInOrder(ips, OfExternal(ips))
  {
    if ips != [] {
      var init := ips[..|ips| - 1];
      ExternalInOrder(init);
      forall i | 0 <= i < |ips| && ips[i].Ephemeral?
        ensures Ephemerals(ips[..i]) < |OfExternal(ips)|
        ensures OfExternal(ips)[Ephemerals(ips[..i])] == ExternalIP(ips[i].ip)
      {
        if i < |init| {
          assert init[..i] == ips[..i] && init[i] == ips[i];
        }
      }
    }
  }

  lemma OfStacksSnoc(nics: seq<IpStack>, last: IpStack)
    ensures OfStacks(nics + [last]) == OfStacks(nics) + OfStack(last)
  {
    assert (nics + [last])[..|nics|] == nics;
  }

  /** Flattening keeps the order of the interfaces: it distributes over concatenation. */
  lemma {:induction false} OfStacksConcat(a: seq<IpStack>, b: seq<IpStack>)
    ensures OfStacks(a + b) == OfStacks(a) + OfStacks(b)
  {
    if b == [] {
      assert a + b == a;
    } else {
      var init, last := b[..|b| - 1], b[|b| - 1];
      assert b == init + [last] && a + b == (a + init) + [last];
      calc {
        OfStacks(a + b);
        { OfStacksSnoc(a + init, last); }
        OfStacks(a + init) + OfStack(last);
        { OfStacksConcat(a, init); }
        OfStacks(a) + OfStacks(init) + OfStack(last);
        { assert OfStacks(b) == OfStacks(init) + OfStack(last); }
        OfStacks(a) + OfStacks(b);
      }
    }
  }

  /** Every external address is an ephemeral IP of the instance, and every ephemeral IP appears. */
  lemma {:induction false} ExternalAreTheEphemeral(ips: seq<ExternalIp>, a: Address)
    ensures a in OfExternal(ips) <==> a.ExternalIP? && Ephemeral(a.address) in ips
  {
    if ips != [] {
      var init, last := ips[..|ips| - 1], ips[|ips| - 1];
      ExternalAreTheEphemeral(init, a);
      assert ips == init + [last];
    }
  }

  /** Interface addresses are internal ones only. */
  lemma {:induction false} StacksAreInternal(nics: seq<IpStack>, a: Address)
    ensures a in OfStacks(nics) <==> exists s :: s in nics && a in OfStack(s)
    ensures a in OfStacks(nics) ==> a.InternalIP?
  {
    if nics != [] {
      var init, last := nics[..|nics| - 1], nics[|nics| - 1];
      StacksAreInternal(init, a);
      assert nics == init + [last];
    }
  }
}
