/** Turning TUN options into assigned prefixes, a DNS address and a routing
    configuration. Text that does not parse is `None`. */
module TunOptions {
  import opened Netip
  import opened Policy
  import opened Strings

  type Cidr = p: Prefix | p.IsValid() witness DefaultPrefix(V4)

  /** The fallback option: absent, malformed, or a prefix. */
  datatype Fallback = Absent | Malformed | Given(prefix: Cidr)

  datatype TunAddrs = TunAddrs(addrs: seq<Prefix>, dns: Addr)

  predicate Assigned(addrs: seq<Prefix>, a: Addr) {
    exists p | p in addrs :: p.addr == a
  }

  /** Loopback prefixes are dropped, the others kept once each in order. */
  function Kept(addrs: seq<Option<Cidr>>): seq<Prefix>
    requires forall x | x in addrs :: x.Some?
  {
    if addrs == [] then []
    else
      var rest, last := Kept(addrs[..|addrs| - 1]), addrs[|addrs| - 1];
      assert last in addrs;
      if last.value.addr.IsLoopback() || last.value in rest then rest else rest + [last.value]
  }

  lemma {:induction false} KeptFacts(addrs: seq<Option<Cidr>>)
    requires forall x | x in addrs :: x.Some?
    ensures Distinct(Kept(addrs))
    ensures forall p :: p in Kept(addrs) <==> Some(p) in addrs && !p.addr.IsLoopback()
    ensures forall p | p in Kept(addrs) :: p.IsValid()
  {
    hide Addr.IsLoopback;
    if addrs != [] {
      var init, last := addrs[..|addrs| - 1], addrs[|addrs| - 1];
      assert addrs == init + [last] && last in addrs;
      KeptFacts(init);
    }
  }

  /** Prefixes stay in the order in which they first appear. */
  lemma {:induction false} KeptOrder(addrs: seq<Option<Cidr>>, n: nat)
    requires n <= |addrs| && forall x | x in addrs :: x.Some?
    ensures Kept(addrs[..n]) <= Kept(addrs)
  {
    hide Addr.IsLoopback;
    if n < |addrs| {
      assert addrs[..|addrs| - 1][..n] == addrs[..n];
      KeptOrder(addrs[..|addrs| - 1], n);
    } else {
      assert addrs[..n] == addrs;
    }
  }

  /** The fallback joins unless its address is there already. */
  function WithFallback(kept: seq<Prefix>, fallback: Fallback): seq<Prefix> {
    if fallback.Given? && !Assigned(kept, fallback.prefix.addr) then kept + [fallback.prefix] else kept
  }

  /** One pass over the requested addresses, remembering whether the DNS address and the
      fallback's address were met; then the fallback joins if its address was not. */
  method NormalizeTunAddrs(addrs: seq<Option<Cidr>>, fallback: Fallback, dns: Addr) returns (r: Option<TunAddrs>)
    ensures r.Some? <==> (forall x | x in addrs :: x.Some?) && !fallback.Malformed?
    ensures r.Some? ==>
              && Kept(addrs) <= r.value.addrs && (forall p | p in r.value.addrs :: p.IsValid())
              && Distinct(r.value.addrs)
              && (r.value.dns.IsValid() ==> Assigned(r.value.addrs, r.value.dns))
              && (dns.IsValid() && Assigned(r.value.addrs, dns) ==> r.value.dns == dns)
              && (fallback.Given? ==> r.value.dns.IsValid() && Assigned(r.value.addrs, fallback.prefix.addr))
              && r.value.addrs == WithFallback(Kept(addrs), fallback)
              && r.value.addrs == Kept(addrs) + (if fallback.Given? && !Assigned(Kept(addrs), fallback.prefix.addr)
                                                 then [fallback.prefix] else [])
              && (r.value.dns.IsValid() ==>
                    r.value.dns == dns || (fallback.Given? && r.value.dns == fallback.prefix.addr))
  {
    hide Addr.IsLoopback;
    if fallback.Malformed? {
      return None;
    }
    var seen: set<Prefix> := {};
    var out: seq<Prefix> := [];
    var containsDns, containsFallback := false, false;
    for i := 0 to |addrs|
      invariant forall j | 0 <= j < i :: addrs[j].Some?
      invariant out == Kept(addrs[..i])
      invariant forall p :: p in seen <==> p in out
      invariant containsDns <==> dns.IsValid() && Assigned(out, dns)
      invariant containsFallback <==> fallback.Given? && Assigned(out, fallback.prefix.addr)
    {
      if addrs[i].None? {
        assert addrs[i] in addrs;
        return None;
      }
      var p := addrs[i].value;
      assert addrs[..i + 1] == addrs[..i] + [addrs[i]];
      assert addrs[..i + 1][..i] == addrs[..i];
      if p.addr.IsLoopback() {
        continue;
      }
      ghost var before := out;
      if p !in seen {
        seen := seen + {p};
        out := out + [p];
      }
      assert forall a :: Assigned(out, a) <==> Assigned(before, a) || a == p.addr by { AssignedMore(before, out, p); }
      if dns.IsValid() && p.addr == dns {
        containsDns := true;
      }
      if fallback.Given? && p.addr == fallback.prefix.addr {
        containsFallback := true;
      }
    }
    assert addrs[..|addrs|] == addrs;
    KeptFacts(addrs);
    if fallback.Given? && !containsFallback {
      var p := fallback.prefix;
      ghost var before := out;
      if p !in seen {
        out := out + [p];
      }
      AssignedMore(before, out, p);
      if dns.IsValid() && p.addr == dns {
        containsDns := true;
      }
    }
    if dns.IsValid() && containsDns {
      return Some(TunAddrs(out, dns));
    }
    if fallback.Given? {
      return Some(TunAddrs(out, fallback.prefix.addr));
    }
    return Some(TunAddrs(out, NoAddr));
  }

  lemma AssignedMore(before: seq<Prefix>, after: seq<Prefix>, p: Prefix)
    requires after == before + [p] || (after == before && p in before)
    ensures forall a :: Assigned(after, a) <==> Assigned(before, a) || a == p.addr
  {
    assert p in after;
    forall a ensures Assigned(after, a) <==> Assigned(before, a) || a == p.addr {
      if Assigned(before, a) {
        var q :| q in before && q.addr == a;
        assert q in after;
      }
    }
  }

  method NormalizeTunRoutes(routes: seq<Option<Cidr>>) returns (r: Option<seq<Prefix>>)
    ensures r.Some? <==> forall x | x in routes :: x.Some?
    ensures r.Some? ==> r.value == Kept(routes) && forall p | p in r.value :: p.IsValid()
  {
    var seen: set<Prefix> := {};
    var out: seq<Prefix> := [];
    for i := 0 to |routes|
      invariant forall j | 0 <= j < i :: routes[j].Some?
      invariant out == Kept(routes[..i])
      invariant forall p :: p in seen <==> p in out
    {
      hide Addr.IsLoopback;
      if routes[i].None? {
        assert routes[i] in routes;
        return None;
      }
      var p := routes[i].value;
      assert routes[..i + 1][..i] == routes[..i];
      if p.addr.IsLoopback() {
        continue;
      }
      if p !in seen {
        seen := seen + {p};
        out := out + [p];
      }
    }
    assert routes[..|routes|] == routes;
    KeptFacts(routes);
    return Some(out);
  }

  /******* Source routes *******/

  predicate SourceRequestOk(addrs: seq<Prefix>, r: SourceRoute) {
    && r.destination.IsValid() && !r.destination.addr.Is4In6()
    && ValidPreferredSource(r.source)
    && r.destination.addr.Is4() == r.source.Is4()
    && Assigned(addrs, r.source)
  }

  /** One destination, however written, is never given two sources. */
  ghost predicate SourcesAgree(rs: seq<SourceRoute>) {
    forall r, s | r in rs && s in rs && r.destination.Masked() == s.destination.Masked() :: r.source == s.source
  }

  /** What is kept: each masked destination once, with its source. */
  ghost predicate IsNormalized(rs: seq<SourceRoute>, out: seq<SourceRoute>) {
    && DistinctDestinations(out)
    && (forall s | s in out :: exists r :: r in rs && s == SourceRoute(r.destination.Masked(), r.source))
    && (forall r | r in rs :: SourceRoute(r.destination.Masked(), r.source) in out)
  }

  method NormalizeTunSourceRoutes(addrs: seq<Prefix>, rs: seq<SourceRoute>) returns (out: Option<seq<SourceRoute>>)
    ensures out.Some? <==> (forall r | r in rs :: SourceRequestOk(addrs, r)) && SourcesAgree(rs)
    ensures out.Some? ==> IsNormalized(rs, out.value)
  {
    var own: set<Addr> := {};
    for i := 0 to |addrs|
      invariant forall a :: a in own <==> Assigned(addrs[..i], a)
    {
      assert addrs[..i + 1] == addrs[..i] + [addrs[i]];
      AssignedMore(addrs[..i], addrs[..i + 1], addrs[i]);
      own := own + {addrs[i].addr};
    }
    assert addrs[..|addrs|] == addrs;
    var kept: seq<SourceRoute> := [];
    var seen: map<Prefix, Addr> := map[];
    for i := 0 to |rs|
      invariant forall r | r in rs[..i] :: SourceRequestOk(addrs, r)
      invariant IsNormalized(rs[..i], kept)
      invariant forall d :: d in seen <==> exists s :: s in kept && s.destination == d
      invariant forall s | s in kept :: s.destination in seen && seen[s.destination] == s.source
    {
      hide SourceRequestOk, IsNormalized, DistinctDestinations, Prefix.Masked, SourcesAgree;
      var r := rs[i];
      assert r in rs && rs[..i + 1] == rs[..i] + [r];
      RequestParts(addrs, r);
      if !r.destination.IsValid() || r.destination.addr.Is4In6() || !ValidPreferredSource(r.source)
         || r.destination.addr.Is4() != r.source.Is4() || r.source !in own {
        return None;
      }
      var d := r.destination.Masked();
      if d in seen {
        if seen[d] != r.source {
          SourcesDiffer(rs, i, kept, d);
          return None;
        }
        NormalizedAgain(rs[..i], kept, r);
        continue;
      }
      NormalizedMore(rs[..i], kept, r);
      seen := seen[d := r.source];
      kept := kept + [SourceRoute(d, r.source)];
    }
    assert rs[..|rs|] == rs;
    NormalizedAgrees(rs, kept);
    return Some(kept);
  }

  lemma RequestParts(addrs: seq<Prefix>, r: SourceRoute)
    ensures SourceRequestOk(addrs, r) <==>
              && r.destination.IsValid() && !r.destination.addr.Is4In6() && ValidPreferredSource(r.source)
              && r.destination.addr.Is4() == r.source.Is4() && Assigned(addrs, r.source)
  {
  }

  lemma SourcesDiffer(rs: seq<SourceRoute>, i: nat, kept: seq<SourceRoute>, d: Prefix)
    requires i < |rs| && IsNormalized(rs[..i], kept) && d == rs[i].destination.Masked()
    requires exists s :: s in kept && s.destination == d && s.source != rs[i].source
    ensures !SourcesAgree(rs)
  {
    hide Prefix.Masked;
    var s :| s in kept && s.destination == d && s.source != rs[i].source;
    var q :| q in rs[..i] && s == SourceRoute(q.destination.Masked(), q.source);
    assert q in rs && rs[i] in rs;
  }

  lemma NormalizedAgain(rs: seq<SourceRoute>, kept: seq<SourceRoute>, r: SourceRoute)
    requires IsNormalized(rs, kept) && SourceRoute(r.destination.Masked(), r.source) in kept
    ensures IsNormalized(rs + [r], kept)
  {
    hide Prefix.Masked;
  }

  lemma NormalizedMore(rs: seq<SourceRoute>, kept: seq<SourceRoute>, r: SourceRoute)
    requires IsNormalized(rs, kept) && forall s | s in kept :: s.destination != r.destination.Masked()
    ensures IsNormalized(rs + [r], kept + [SourceRoute(r.destination.Masked(), r.source)])
  {
    hide Prefix.Masked;
    var x := SourceRoute(r.destination.Masked(), r.source);
    assert r in rs + [r];
    assert forall i | 0 <= i < |kept| :: kept[i] in kept;
  }

  lemma NormalizedAgrees(rs: seq<SourceRoute>, kept: seq<SourceRoute>)
    requires IsNormalized(rs, kept)
    ensures SourcesAgree(rs)
  {
    hide Prefix.Masked;
    forall r, s | r in rs && s in rs && r.destination.Masked() == s.destination.Masked() ensures r.source == s.source {
      var x, y := SourceRoute(r.destination.Masked(), r.source), SourceRoute(s.destination.Masked(), s.source);
      var i :| 0 <= i < |kept| && kept[i] == x;
      var j :| 0 <= j < |kept| && kept[j] == y;
    }
  }

  /******* Families and the routing configuration *******/

  predicate OfFamily(p: Prefix, f: Family) {
    if f.V4? then p.addr.Is4() else p.addr.Is6()
  }

  predicate HasFamily(ps: seq<Prefix>, f: Family) {
    exists p | p in ps :: OfFamily(p, f)
  }

  const BOTH := FamilySet(true, true)

  function FamiliesOf(ps: seq<Prefix>): FamilySet {
    if HasFamily(ps, V4) || HasFamily(ps, V6) then FamilySet(HasFamily(ps, V4), HasFamily(ps, V6)) else BOTH
  }

  method RouteFamilies(addrs: seq<Prefix>, routes: seq<Prefix>) returns (f: FamilySet)
    ensures f == FamiliesOf(addrs + routes)
    ensures (forall p | p in addrs + routes :: p.IsValid()) ==>
              && (f.ipv4 <==> addrs + routes == [] || exists p :: p in addrs + routes && p.addr.Is4())
              && (f.ipv6 <==> addrs + routes == [] || exists p :: p in addrs + routes && p.addr.Is6())
  {
    var all := addrs + routes;
    f := FamilySet(false, false);
    for i := 0 to |all|
      invariant f == FamilySet(HasFamily(all[..i], V4), HasFamily(all[..i], V6))
    {
      assert all[..i + 1] == all[..i] + [all[i]];
      if all[i].addr.Is4() {
        assert all[i] in all[..i + 1] && OfFamily(all[i], V4);
        f := f.(ipv4 := true);
      } else if all[i].addr.Is6() {
        assert all[i] in all[..i + 1] && OfFamily(all[i], V6);
        f := f.(ipv6 := true);
      }
      HasFamilyMore(all[..i], all[i], V4);
      HasFamilyMore(all[..i], all[i], V6);
    }
    assert all[..|all|] == all;
    if !f.ipv4 && !f.ipv6 {
      f := BOTH;
    }
    if forall p | p in all :: p.IsValid() {
      FamiliesExactly(all);
    }
  }

  /** The families of valid prefixes are those of their addresses; no prefix means both. */
  lemma FamiliesExactly(ps: seq<Prefix>)
    requires forall p | p in ps :: p.IsValid()
    ensures FamiliesOf(ps).ipv4 <==> ps == [] || exists p :: p in ps && p.addr.Is4()
    ensures FamiliesOf(ps).ipv6 <==> ps == [] || exists p :: p in ps && p.addr.Is6()
  {
    if ps != [] {
      assert ps[0] in ps && (ps[0].addr.Is4() || ps[0].addr.Is6());
      assert OfFamily(ps[0], V4) || OfFamily(ps[0], V6);
    }
    assert (exists p :: p in ps && p.addr.Is4()) <==> HasFamily(ps, V4) by {
      if p :| p in ps && p.addr.Is4() { assert OfFamily(p, V4); }
      if HasFamily(ps, V4) { var p :| p in ps && OfFamily(p, V4); assert p.addr.Is4(); }
    }
    assert (exists p :: p in ps && p.addr.Is6()) <==> HasFamily(ps, V6) by {
      if p :| p in ps && p.addr.Is6() { assert OfFamily(p, V6); }
      if HasFamily(ps, V6) { var p :| p in ps && OfFamily(p, V6); assert p.addr.Is6(); }
    }
  }

  /** The TUN carries the families of its prefixes, both if it has none; the policy covers
      those, and everything if it is strict. */
  ghost predicate Carries(c: Config, ps: seq<Prefix>) {
    && (c.tunnelFamilies.ipv4 <==> ps == [] || exists p :: p in ps && p.addr.Is4())
    && (c.tunnelFamilies.ipv6 <==> ps == [] || exists p :: p in ps && p.addr.Is6())
    && (c.families.ipv4 <==> c.strictness == Strict || c.tunnelFamilies.ipv4)
    && (c.families.ipv6 <==> c.strictness == Strict || c.tunnelFamilies.ipv6)
  }

  lemma CarriesItsPrefixes(c: Config, addrs: seq<Prefix>, routes: seq<Prefix>)
    requires forall p | p in addrs :: p.IsValid()
    ensures (forall p | p in routes :: p.IsValid()) ==> Carries(WithFamilies(c, addrs, routes), addrs + routes)
  {
    hide FamiliesOf;
    if forall p | p in routes :: p.IsValid() {
      FamiliesExactly(addrs + routes);
    }
  }

  lemma HasFamilyMore(ps: seq<Prefix>, p: Prefix, f: Family)
    ensures HasFamily(ps + [p], f) <==> HasFamily(ps, f) || OfFamily(p, f)
  {
    if HasFamily(ps, f) {
      var q :| q in ps && OfFamily(q, f);
      assert q in ps + [p];
    }
    assert p in ps + [p];
  }

  function WithFamilies(c: Config, addrs: seq<Prefix>, routes: seq<Prefix>): Config {
    var carried := FamiliesOf(addrs + routes);
    c.(tunnelFamilies := carried, families := if c.strictness == Strict then BOTH else carried)
  }

  /** The conditions that do not depend on addresses. */
  predicate BaseOk(c: Config) {
    && 0 < c.tunIndex
    && !ReservedTable(c.vpnTable) && !ReservedTable(c.safeTable) && c.vpnTable != c.safeTable
    && 0 < c.base && DEFAULT_PRIORITY_SPAN <= c.span && c.base + c.span <= FIRST_KERNEL_BUILTIN_PRIORITY
    && c.appMask != 0 && c.userMask != 0
    && !MarksOverlap(c.appMark, c.appMask, c.userMark, c.userMask)
    && !c.mode.OtherMode? && !c.strictness.OtherStrictness?
  }

  /** What a stored source route needs besides an assigned source. */
  predicate SourceShapeOk(r: SourceRoute) {
    && r.destination.IsValid() && !r.destination.addr.Is4In6() && r.destination == r.destination.Masked()
    && ValidPreferredSource(r.source) && r.destination.addr.Is4() == r.source.Is4()
  }

  ghost predicate SourcesAssigned(rs: seq<SourceRoute>, addrs: seq<Prefix>) {
    forall r | r in rs :: Assigned(addrs, r.source)
  }

  lemma SourceFamilyCarried(c: Config, addrs: seq<Prefix>, routes: seq<Prefix>, r: SourceRoute)
    requires ValidPreferredSource(r.source) && Assigned(addrs, r.source)
    ensures TunnelFamilies(WithFamilies(c, addrs, routes)).Has(FamilyOf(r.source))
  {
    hide Addr.Is4In6, Addr.IsMulticast, Addr.IsLoopback, Addr.IsLinkLocalUnicast, Addr.IsGlobalUnicast;
    var p :| p in addrs && p.addr == r.source;
    assert p in addrs + routes && OfFamily(p, FamilyOf(r.source));
    assert HasFamily(addrs + routes, FamilyOf(r.source));
  }

  /** Whatever the addresses and routes, a configuration whose sources are assigned
      passes validation. */
  lemma FamiliesKeepValid(c: Config, addrs: seq<Prefix>, routes: seq<Prefix>)
    requires BaseOk(c) && DistinctDestinations(c.sourceRoutes) && SourcesAssigned(c.sourceRoutes, addrs)
    requires forall r | r in c.sourceRoutes :: SourceShapeOk(r)
    ensures Policy.Valid(WithFamilies(c, addrs, routes))
  {
    hide Addr.Is4In6, ValidPreferredSource, Prefix.Masked, MarksOverlap;
    var d := WithFamilies(c, addrs, routes);
    forall r | r in d.sourceRoutes ensures SourceRouteOk(d, r) {
      assert SourceShapeOk(r);
      SourceFamilyCarried(c, addrs, routes, r);
    }
  }

  lemma ValidParts(c: Config)
    requires Policy.Valid(c)
    ensures BaseOk(c) && DistinctDestinations(c.sourceRoutes) && forall r | r in c.sourceRoutes :: SourceShapeOk(r)
  {
    hide Addr.Is4In6, ValidPreferredSource, Prefix.Masked, MarksOverlap;
    assert forall r | r in c.sourceRoutes :: SourceRouteOk(c, r);
  }

  lemma NormalizedShape(addrs: seq<Prefix>, rs: seq<SourceRoute>, out: seq<SourceRoute>)
    requires IsNormalized(rs, out) && forall r | r in rs :: SourceRequestOk(addrs, r)
    ensures SourcesAssigned(out, addrs) && forall s | s in out :: SourceShapeOk(s)
  {
    forall s | s in out ensures Assigned(addrs, s.source) && SourceShapeOk(s) {
      var r :| r in rs && s == SourceRoute(r.destination.Masked(), r.source);
      ShapeOfRequest(addrs, r);
    }
  }

  lemma ShapeOfRequest(addrs: seq<Prefix>, r: SourceRoute)
    requires SourceRequestOk(addrs, r)
    ensures SourceShapeOk(SourceRoute(r.destination.Masked(), r.source))
  {
    hide Addr.IsMulticast, Addr.IsLoopback, Addr.IsLinkLocalUnicast, Addr.IsGlobalUnicast;
    MaskedContains(r.destination, r.destination.addr);
    if r.destination.Masked().addr.Is4In6() {
      MappedBeforeMasking(r.destination);
    }
  }

  /** Masking never turns an ordinary IPv6 prefix into an IPv4-mapped one. */
  lemma MappedBeforeMasking(p: Prefix)
    requires p.IsValid() && p.Masked().addr.Is4In6()
    ensures p.addr.Is4In6()
  {
    var m := p.Masked().addr;
    assert m.bits[..96] == Zeros(80) + Ones(16);
    assert m.bits[..96][95] == m.bits[95];
    assert p.len >= 96;
    assert m.bits[..96] == p.addr.bits[..96];
  }
}
