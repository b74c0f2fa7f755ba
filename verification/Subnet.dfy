/** Whether a candidate subnet collides with the host's own addresses and networks. */
module Subnet {
  import opened Netip

  /** An interface address as the operating system reports it: with a mask of `ones`
      out of `bits`, without a mask, or of another kind. */
  datatype LocalAddr = WithMask(ip: Addr, ones: int, bits: int) | Plain(ip: Addr) | OtherKind

  /** A network in the form the library works with: the addresses it holds, and its mask
      as `ones` out of `bits`. An IPv4 address under a 128-bit mask of 96 ones or more is
      an IPv4 network. */
  datatype Net = Net(prefix: Prefix, ones: int, bits: int)

  datatype SystemNetworks = SystemNetworks(ips: seq<Addr>, networks: seq<Net>)

  /** An address in its shortest form. */
  function Short(ip: Addr): (a: Addr)
    requires ip.IsValid()
    ensures a.IsValid() && a.zone == ""
  {
    if ip.Is4In6() then Addr(V4, ip.bits[96..], "") else Addr(ip.family, ip.bits, "")
  }

  function NormalizeIP(ip: Addr): Option<Addr> {
    if ip.IsValid() then Some(Short(ip)) else None
  }

  /** The 16-byte form of an address. */
  function Widen(a: Addr): (w: Addr)
    requires a.IsValid()
    ensures w.IsValid() && w.zone == "" && w.family.V6?
  {
    if a.family.V4? then Addr(V6, Zeros(80) + Ones(16) + a.bits, "") else Addr(V6, a.bits, "")
  }

  /** An IPv4 address, written as such or as an IPv4-mapped IPv6 address. */
  predicate IsV4(ip: Addr) {
    ip.Is4() || ip.Is4In6()
  }

  /** Address and mask make a network. */
  predicate IsNet(ip: Addr, ones: int, bits: int) {
    ip.IsValid() && 0 <= ones <= bits && (bits == 128 || (bits == 32 && IsV4(ip)))
  }

  /** Which addresses are in it: those that agree with `ip` in the first `ones` bits, of the
      same kind as the network. A 128-bit mask of 96 ones or more makes an IPv4 network of an
      IPv4 address, a shorter one never does. */
  predicate InNet(ip: Addr, ones: int, bits: int, x: Addr)
    requires IsNet(ip, ones, bits)
  {
    var n := ones + (128 - bits);
    && x.IsValid() && x.zone == "" && (x.family.V4? <==> IsV4(ip) && 96 <= n)
    && Widen(x).bits[..n] == Widen(Short(ip)).bits[..n]
  }

  function NormalizeNet(ip: Addr, ones: int, bits: int): (r: Option<Net>)
    ensures r.Some? ==> r.value.prefix.IsValid() && r.value.prefix.Masked() == r.value.prefix
    ensures r.Some? ==> r.value.ones == ones && r.value.bits == bits
  {
    if !ip.IsValid() || ones < 0 || ones > bits || (bits != 32 && bits != 128) then None
    else
      var a := Short(ip);
      if bits == 32 then
        if a.family.V4? then Some(Net(Masked(Prefix(a, ones)), ones, bits)) else None
      else if a.family.V4? && 96 <= ones then Some(Net(Masked(Prefix(a, ones - 96)), ones, bits))
      else Some(Net(Masked(Prefix(Widen(ip), ones)), ones, bits))
  }

  lemma WidenShort(ip: Addr)
    requires ip.IsValid()
    ensures Short(ip).family.V4? <==> IsV4(ip)
    ensures Widen(Short(ip)) == Widen(ip)
  {
    if ip.Is4In6() {
      assert ip.bits == ip.bits[..96] + ip.bits[96..];
    }
  }

  /** Two IPv4 addresses in 16-byte form agree as far as the addresses themselves do. */
  lemma WidenAgree(a: Addr, b: Addr, n: nat)
    requires a.Is4() && b.Is4() && 96 <= n <= 128
    ensures Widen(a).bits[..n] == Widen(b).bits[..n] <==> a.bits[..n - 96] == b.bits[..n - 96]
  {
    var front := Zeros(80) + Ones(16);
    assert Widen(a).bits[..n] == front + a.bits[..n - 96] && Widen(b).bits[..n] == front + b.bits[..n - 96];
    if Widen(a).bits[..n] == Widen(b).bits[..n] {
      assert a.bits[..n - 96] == Widen(a).bits[..n][96..] && b.bits[..n - 96] == Widen(b).bits[..n][96..];
    }
  }

  /** Normalising succeeds exactly for networks, and the result holds exactly their addresses. */
  lemma NetContains(ip: Addr, ones: int, bits: int, x: Addr)
    ensures NormalizeNet(ip, ones, bits).Some? <==> IsNet(ip, ones, bits)
    ensures IsNet(ip, ones, bits) ==>
              (NormalizeNet(ip, ones, bits).value.prefix.Contains(x) <==> InNet(ip, ones, bits, x))
  {
    if IsNet(ip, ones, bits) {
      WidenShort(ip);
      var a, n := Short(ip), ones + (128 - bits);
      if a.family.V4? && 96 <= n {
        if x.IsValid() && x.family.V4? {
          WidenAgree(x, a, n);
        }
        assert NormalizeNet(ip, ones, bits).value.prefix.Contains(x) <==> Prefix(a, n - 96).Contains(x);
      } else {
        assert NormalizeNet(ip, ones, bits).value.prefix.Contains(x) <==> Prefix(Widen(ip), ones).Contains(x);
      }
    }
  }

  function Masked(p: Prefix): (m: Prefix)
    requires p.IsValid()
    ensures m.IsValid() && m.Masked() == m && m.len == p.len
    ensures forall a :: m.Contains(a) <==> p.Contains(a)
  {
    assert forall a :: p.Masked().Contains(a) <==> p.Contains(a) by {
      forall a ensures p.Masked().Contains(a) <==> p.Contains(a) {
        MaskedContains(p, a);
      }
    }
    MaskedContains(p, p.addr);
    p.Masked()
  }

  datatype Local = Local(ip: Addr, net: Net)

  function Entry(a: LocalAddr): (r: Option<Local>)
    ensures r.Some? ==> r.value.ip.IsValid() && r.value.net.prefix.IsValid()
  {
    match a
    case WithMask(ip, ones, bits) =>
      var net, host := NormalizeNet(ip, ones, bits), NormalizeIP(ip);
      if net.Some? && host.Some? then Some(Local(host.value, net.value)) else None
    case Plain(ip) =>
      var host := NormalizeIP(ip);
      if host.Some? then
        var w := Width(host.value.family);
        Some(Local(host.value, Net(Prefix(host.value, w), w, w)))
      else None
    case OtherKind => None
  }

  ghost predicate Reports(addrs: seq<LocalAddr>, l: Local) {
    exists a :: a in addrs && Entry(a) == Some(l)
  }

  ghost predicate Collected(addrs: seq<LocalAddr>, s: SystemNetworks) {
    && (forall ip :: ip in s.ips <==> exists net :: Reports(addrs, Local(ip, net)))
    && (forall net :: net in s.networks <==> exists ip :: Reports(addrs, Local(ip, net)))
  }

  method NewSystemNetworks(addrs: seq<LocalAddr>) returns (s: SystemNetworks)
    ensures Collected(addrs, s)
  {
    s := SystemNetworks([], []);
    for i := 0 to |addrs|
      invariant Collected(addrs[..i], s)
    {
      hide Collected, Entry;
      assert addrs[..i + 1] == addrs[..i] + [addrs[i]];
      CollectOne(addrs[..i], addrs[i], s);
      var e := Entry(addrs[i]);
      if e.None? {
        continue;
      }
      s := SystemNetworks(s.ips + [e.value.ip], s.networks + [e.value.net]);
    }
    assert addrs[..|addrs|] == addrs;
  }

  lemma ReportsMore(addrs: seq<LocalAddr>, a: LocalAddr, l: Local)
    ensures Reports(addrs + [a], l) <==> Reports(addrs, l) || Entry(a) == Some(l)
  {
    hide Entry;
    assert a in addrs + [a] && forall x | x in addrs :: x in addrs + [a];
  }

  lemma CollectOne(addrs: seq<LocalAddr>, a: LocalAddr, s: SystemNetworks)
    requires Collected(addrs, s)
    ensures var e := Entry(a);
            Collected(addrs + [a],
                      if e.Some? then SystemNetworks(s.ips + [e.value.ip], s.networks + [e.value.net]) else s)
  {
    hide Entry, Reports;
    forall l: Local ensures Reports(addrs + [a], l) <==> Reports(addrs, l) || Entry(a) == Some(l) {
      ReportsMore(addrs, a, l);
    }
    var e := Entry(a);
    if e.Some? {
      assert Reports(addrs + [a], Local(e.value.ip, e.value.net));
    }
  }

  predicate SameFamily(a: Prefix, b: Prefix) {
    a.addr.Addr? && b.addr.Addr? && a.addr.family == b.addr.family
  }

  predicate Overlap(a: Prefix, b: Prefix) {
    SameFamily(a, b) && (a.Contains(b.addr) || b.Contains(a.addr))
  }

  ghost predicate Meet(a: Prefix, b: Prefix) {
    exists x: Addr :: a.Contains(x) && b.Contains(x)
  }

  lemma ContainsItself(p: Prefix)
    requires p.IsValid()
    ensures p.Contains(p.addr)
  {
  }

  lemma SharedAddress(a: Prefix, b: Prefix, x: Addr)
    requires a.Contains(x) && b.Contains(x) && a.len <= b.len
    ensures a.Contains(b.addr)
  {
    assert x.bits[..a.len] == x.bits[..b.len][..a.len];
    assert b.addr.bits[..a.len] == b.addr.bits[..b.len][..a.len];
  }

  /** The overlap test is exact: it holds when and only when the two networks share an address. */
  lemma OverlapIsExact(a: Prefix, b: Prefix)
    requires a.IsValid() && b.IsValid()
    ensures Overlap(a, b) <==> Meet(a, b)
  {
    ContainsItself(a);
    ContainsItself(b);
    if Meet(a, b) {
      var x: Addr :| a.Contains(x) && b.Contains(x);
      if a.len <= b.len {
        SharedAddress(a, b, x);
      } else {
        SharedAddress(b, a, x);
      }
    }
  }

  const BROAD := 8

  /** The same mask and the same address. */
  predicate SameSubnet(a: Net, b: Net) {
    a.bits == b.bits && a.ones == b.ones && a.prefix.addr == b.prefix.addr
  }

  predicate Collides(c: Net, n: Net) {
    SameSubnet(c, n) || (BROAD <= n.ones && Overlap(c.prefix, n.prefix))
  }

  predicate Uses(s: SystemNetworks, c: Net) {
    || (exists ip | ip in s.ips :: c.prefix.Contains(ip))
    || (exists n | n in s.networks :: Collides(c, n))
  }

  /** A candidate that is no network at all is not in use. */
  method UsesSubnet(s: SystemNetworks, ip: Addr, ones: int, bits: int) returns (r: bool)
    ensures r <==> NormalizeNet(ip, ones, bits).Some? && Uses(s, NormalizeNet(ip, ones, bits).value)
  {
    var candidate := NormalizeNet(ip, ones, bits);
    if candidate.None? {
      return false;
    }
    var c := candidate.value;
    hide Prefix.Contains, NormalizeNet;
    for i := 0 to |s.ips|
      invariant forall j | 0 <= j < i :: !c.prefix.Contains(s.ips[j])
    {
      if c.prefix.Contains(s.ips[i]) {
        assert s.ips[i] in s.ips;
        return true;
      }
    }
    for i := 0 to |s.networks|
      invariant forall j | 0 <= j < i :: !Collides(c, s.networks[j])
    {
      var n := s.networks[i];
      if SameSubnet(c, n) {
        assert n in s.networks && Collides(c, n);
        return true;
      }
      if n.ones < BROAD {
        continue;
      }
      if Overlap(c.prefix, n.prefix) {
        assert n in s.networks && Collides(c, n);
        return true;
      }
    }
    return false;
  }

  /** An address the host uses: one of its own, or one in a network of mask length 8 or more. */
  ghost predicate Taken(s: SystemNetworks, x: Addr) {
    x in s.ips || exists n :: n in s.networks && BROAD <= n.ones && n.prefix.Contains(x)
  }

  /** Rejection is exact: a candidate is used if and only if it holds an address the host
      uses, or is itself one of the host's networks. */
  lemma UsedIff(s: SystemNetworks, c: Net)
    requires c.prefix.IsValid() && forall n | n in s.networks :: n.prefix.IsValid()
    ensures Uses(s, c) <==>
              || (exists n :: n in s.networks && SameSubnet(c, n))
              || (exists x: Addr :: c.prefix.Contains(x) && Taken(s, x))
  {
    hide Prefix.Contains, Overlap;
    if Uses(s, c) {
      if exists ip | ip in s.ips :: c.prefix.Contains(ip) {
        var ip :| ip in s.ips && c.prefix.Contains(ip);
        assert Taken(s, ip);
      } else {
        var n :| n in s.networks && Collides(c, n);
        if !SameSubnet(c, n) {
          OverlapIsExact(c.prefix, n.prefix);
          var x: Addr :| c.prefix.Contains(x) && n.prefix.Contains(x);
          assert Taken(s, x);
        }
      }
    }
    forall x: Addr, n | c.prefix.Contains(x) && n in s.networks && BROAD <= n.ones && n.prefix.Contains(x)
      ensures Uses(s, c)
    {
      OverlapIsExact(c.prefix, n.prefix);
      assert Collides(c, n);
    }
    forall n | n in s.networks && SameSubnet(c, n) ensures Uses(s, c) {
      assert Collides(c, n);
    }
  }

  lemma CollectedValid(addrs: seq<LocalAddr>, s: SystemNetworks)
    requires Collected(addrs, s)
    ensures forall n | n in s.networks :: n.prefix.IsValid()
  {
    forall n | n in s.networks ensures n.prefix.IsValid() {
      var ip :| Reports(addrs, Local(ip, n));
      var a :| a in addrs && Entry(a) == Some(Local(ip, n));
    }
  }

  /** A reported address or network stands in the way of `c`. */
  ghost predicate Blocks(l: Local, c: Net) {
    SameSubnet(c, l.net) || exists x: Addr :: c.prefix.Contains(x) && Covers(l, x)
  }

  /** An address the host uses through `l`. */
  predicate Covers(l: Local, x: Addr) {
    x == l.ip || (BROAD <= l.net.ones && l.net.prefix.Contains(x))
  }

  lemma UsedByReports(addrs: seq<LocalAddr>, s: SystemNetworks, c: Net)
    requires Collected(addrs, s) && c.prefix.IsValid()
    ensures Uses(s, c) <==> exists l: Local :: Reports(addrs, l) && Blocks(l, c)
  {
    hide Prefix.Contains, Reports, Uses;
    CollectedValid(addrs, s);
    UsedIff(s, c);
    forall l: Local | Reports(addrs, l) && Blocks(l, c) ensures Uses(s, c) {
      assert Reports(addrs, Local(l.ip, l.net));
      if !SameSubnet(c, l.net) {
        var x: Addr :| c.prefix.Contains(x) && Covers(l, x);
        assert Taken(s, x);
      }
    }
    if Uses(s, c) {
      ghost var l := Blocker(addrs, s, c);
    }
  }

  lemma Blocker(addrs: seq<LocalAddr>, s: SystemNetworks, c: Net) returns (l: Local)
    requires Collected(addrs, s)
    requires (exists n :: n in s.networks && SameSubnet(c, n)) || exists x: Addr :: c.prefix.Contains(x) && Taken(s, x)
    ensures Reports(addrs, l) && Blocks(l, c)
  {
    hide Prefix.Contains, Reports;
    if n :| n in s.networks && SameSubnet(c, n) {
      var ip :| Reports(addrs, Local(ip, n));
      l := Local(ip, n);
    } else {
      var x: Addr :| c.prefix.Contains(x) && Taken(s, x);
      if x in s.ips {
        var net :| Reports(addrs, Local(x, net));
        l := Local(x, net);
      } else {
        var n :| n in s.networks && BROAD <= n.ones && n.prefix.Contains(x);
        var ip :| Reports(addrs, Local(ip, n));
        l := Local(ip, n);
      }
      assert Covers(l, x);
    }
  }

  /** A report stands in the way of the network `ip`/`ones`: it is the same network, its
      address lies in the network, or it is a network of mask length 8 or more that shares an
      address with it. */
  ghost predicate Stands(a: LocalAddr, ip: Addr, ones: int, bits: int)
    requires IsNet(ip, ones, bits)
  {
    match a
    case WithMask(host, o, b) =>
      && IsNet(host, o, b)
      && (|| (o == ones && b == bits && forall x :: InNet(host, o, b, x) <==> InNet(ip, ones, bits, x))
          || InNet(ip, ones, bits, Short(host))
          || (8 <= o && exists x :: InNet(ip, ones, bits, x) && InNet(host, o, b, x)))
    case Plain(host) => host.IsValid() && InNet(ip, ones, bits, Short(host))
    case OtherKind => false
  }

  /** Two networks with the same mask have the same address exactly when they hold the same
      addresses. */
  lemma SameNetIff(a: Addr, b: Addr, ones: int, bits: int)
    requires IsNet(a, ones, bits) && IsNet(b, ones, bits)
    ensures NormalizeNet(a, ones, bits).Some? && NormalizeNet(b, ones, bits).Some?
    ensures NormalizeNet(a, ones, bits).value.prefix.addr == NormalizeNet(b, ones, bits).value.prefix.addr
       <==> forall x :: InNet(a, ones, bits, x) <==> InNet(b, ones, bits, x)
  {
    var p, q := NormalizeNet(a, ones, bits).value.prefix, NormalizeNet(b, ones, bits).value.prefix;
    forall x
      ensures p.Contains(x) <==> InNet(a, ones, bits, x)
      ensures q.Contains(x) <==> InNet(b, ones, bits, x)
    {
      NetContains(a, ones, bits, x);
      NetContains(b, ones, bits, x);
    }
    NetLength(a, ones, bits);
    NetLength(b, ones, bits);
    hide InNet, NormalizeNet, IsNet;
    if p.addr == q.addr {
      assert p == q;
    }
    if forall x :: InNet(a, ones, bits, x) <==> InNet(b, ones, bits, x) {
      ContainsItself(p);
      assert q.Contains(p.addr);
      MaskedUnique(p, q, p.addr);
    }
  }

  lemma NetLength(a: Addr, ones: int, bits: int)
    requires IsNet(a, ones, bits)
    ensures NormalizeNet(a, ones, bits).Some?
    ensures var p := NormalizeNet(a, ones, bits).value.prefix;
            && p.IsValid() && p.Masked() == p
            && p.len == if p.addr.family.V4? then ones + (128 - bits) - 96 else ones
  {
    WidenShort(a);
  }

  lemma MaskStands(host: Addr, o: int, b: int, ip: Addr, ones: int, bits: int)
    requires IsNet(ip, ones, bits) && NormalizeNet(ip, ones, bits).Some?
    ensures var l := Entry(WithMask(host, o, b));
            (l.Some? && Blocks(l.value, NormalizeNet(ip, ones, bits).value))
            <==> Stands(WithMask(host, o, b), ip, ones, bits)
  {
    NetContains(host, o, b, ip);
    if IsNet(host, o, b) {
      var c, n := NormalizeNet(ip, ones, bits).value, NormalizeNet(host, o, b).value;
      assert Entry(WithMask(host, o, b)) == Some(Local(Short(host), n));
      forall x
        ensures c.prefix.Contains(x) <==> InNet(ip, ones, bits, x)
        ensures n.prefix.Contains(x) <==> InNet(host, o, b, x)
      {
        NetContains(ip, ones, bits, x);
        NetContains(host, o, b, x);
      }
      if o == ones && b == bits {
        SameNetIff(host, ip, ones, bits);
      }
      hide InNet, NormalizeNet, IsNet, Prefix.Contains;
      var l := Local(Short(host), n);
      assert (exists x: Addr :: c.prefix.Contains(x) && Covers(l, x)) <==>
             (|| InNet(ip, ones, bits, Short(host))
              || (8 <= o && exists x :: InNet(ip, ones, bits, x) && InNet(host, o, b, x))) by
      {
        CoveredSplit(c, l);
      }
    }
  }

  /** What a report covers: its address and, if the mask is long enough, its network. */
  lemma CoveredSplit(c: Net, l: Local)
    ensures (exists x: Addr :: c.prefix.Contains(x) && Covers(l, x)) <==>
              || c.prefix.Contains(l.ip)
              || (8 <= l.net.ones && exists x: Addr :: c.prefix.Contains(x) && l.net.prefix.Contains(x))
  {
    hide Prefix.Contains;
    if c.prefix.Contains(l.ip) {
      assert Covers(l, l.ip);
    }
    if 8 <= l.net.ones && exists x: Addr :: c.prefix.Contains(x) && l.net.prefix.Contains(x) {
      var x: Addr :| c.prefix.Contains(x) && l.net.prefix.Contains(x);
      assert Covers(l, x);
    }
  }

  lemma HostStands(host: Addr, ip: Addr, ones: int, bits: int)
    requires IsNet(ip, ones, bits) && NormalizeNet(ip, ones, bits).Some?
    ensures var l := Entry(Plain(host));
            (l.Some? && Blocks(l.value, NormalizeNet(ip, ones, bits).value))
            <==> Stands(Plain(host), ip, ones, bits)
  {
    if host.IsValid() {
      var c, a := NormalizeNet(ip, ones, bits).value, Short(host);
      var w := Width(a.family);
      var l := Local(a, Net(Prefix(a, w), w, w));
      assert Entry(Plain(host)) == Some(l);
      NetContains(ip, ones, bits, a);
      CoveredSplit(c, l);
      forall x: Addr | l.net.prefix.Contains(x) ensures x == a {
        assert x.bits == x.bits[..w] && a.bits == a.bits[..w];
      }
      if SameSubnet(c, l.net) {
        ContainsItself(c.prefix);
      }
    }
  }

  lemma StandsIff(a: LocalAddr, ip: Addr, ones: int, bits: int)
    requires IsNet(ip, ones, bits) && NormalizeNet(ip, ones, bits).Some?
    ensures (Entry(a).Some? && Blocks(Entry(a).value, NormalizeNet(ip, ones, bits).value))
       <==> Stands(a, ip, ones, bits)
  {
    match a
    case WithMask(host, o, b) => MaskStands(host, o, b, ip, ones, bits);
    case Plain(host) => HostStands(host, ip, ones, bits);
    case OtherKind =>
  }

  /** From what the host reports to what is accepted: a candidate network is rejected if and
      only if one of the reports stands in its way. What is accepted shares no address with
      the host, apart from the host's networks of mask length below 8. */
  method AcceptsSubnet(addrs: seq<LocalAddr>, ip: Addr, ones: int, bits: int) returns (free: bool)
    ensures var c := NormalizeNet(ip, ones, bits);
            free <==> c.None? || forall l: Local | Reports(addrs, l) :: !Blocks(l, c.value)
    ensures free <==> !IsNet(ip, ones, bits) || forall a | a in addrs :: !Stands(a, ip, ones, bits)
  {
    var s := NewSystemNetworks(addrs);
    var used := UsesSubnet(s, ip, ones, bits);
    free := !used;
    ghost var c := NormalizeNet(ip, ones, bits);
    hide NormalizeNet, Prefix.Contains, Reports, Blocks, Uses;
    NetContains(ip, ones, bits, ip);
    if c.Some? {
      UsedByReports(addrs, s, c.value);
      ReportsStand(addrs, ip, ones, bits);
    }
  }

  lemma ReportsStand(addrs: seq<LocalAddr>, ip: Addr, ones: int, bits: int)
    requires IsNet(ip, ones, bits) && NormalizeNet(ip, ones, bits).Some?
    ensures (exists l: Local :: Reports(addrs, l) && Blocks(l, NormalizeNet(ip, ones, bits).value))
       <==> exists a :: a in addrs && Stands(a, ip, ones, bits)
  {
    hide NormalizeNet, IsNet, Stands, Blocks, Entry;
    var c := NormalizeNet(ip, ones, bits).value;
    forall a | a in addrs ensures (Entry(a).Some? && Blocks(Entry(a).value, c)) <==> Stands(a, ip, ones, bits) {
      StandsIff(a, ip, ones, bits);
    }
    forall a | a in addrs && Stands(a, ip, ones, bits)
      ensures exists l: Local :: Reports(addrs, l) && Blocks(l, c)
    {
      assert Reports(addrs, Entry(a).value);
    }
  }
}
