/** What the VPN and safe tables answer once the compiled routes are installed. */
module Contents {
  import opened Netip
  import opened Order
  import opened Policy
  import opened Kernel
  import opened Transition
  import opened Safety
  import opened Reconciler

  /******* Installed routes *******/

  /** Every entry of a table is the last route installed under its key, or was there before. */
  lemma {:induction false} InstalledFrom(ts: Tables, rs: seq<Route>, id: TableId, key: RouteKey)
    requires key in TableOf(InstallAll(ts, rs), id)
    ensures || (exists r :: r in rs && IdOf(r) == id && KeyOf(r) == key && TableOf(InstallAll(ts, rs), id)[key] == r)
            || (key in TableOf(ts, id) && TableOf(InstallAll(ts, rs), id)[key] == TableOf(ts, id)[key])
  {
    if rs != [] {
      var init, last := rs[..|rs| - 1], rs[|rs| - 1];
      assert rs == init + [last];
      if IdOf(last) == id && KeyOf(last) == key {
        assert last in rs;
      } else {
        InstalledFrom(ts, init, id, key);
      }
    }
  }

  lemma {:induction false} InstalledKey(ts: Tables, rs: seq<Route>, r: Route)
    requires r in rs
    ensures KeyOf(r) in TableOf(InstallAll(ts, rs), IdOf(r))
  {
    var init, last := rs[..|rs| - 1], rs[|rs| - 1];
    assert rs == init + [last];
    if r != last {
      InstalledKey(ts, init, r);
    }
  }

  /******* The VPN table *******/

  ghost predicate CoveredBy(c: Config, a: Addr, s: SourceRoute) {
    s in c.sourceRoutes && s.destination.Contains(a)
  }

  lemma {:induction false} FilterMembers(rs: seq<SourceRoute>, f: Family, s: SourceRoute)
    ensures s in Filter(r => IsSpecific(r, f), rs) <==> s in rs && IsSpecific(s, f)
  {
    if rs != [] {
      FilterMembers(rs[1..], f, s);
      assert rs == [rs[0]] + rs[1..];
    }
  }

  lemma SpecificMembers(c: Config, f: Family, s: SourceRoute)
    ensures s in Sort(SourceLe, Filter(r => IsSpecific(r, f), c.sourceRoutes)) <==>
              s in c.sourceRoutes && IsSpecific(s, f)
  {
    var specific := Filter(r => IsSpecific(r, f), c.sourceRoutes);
    SortPermutes(SourceLe, specific);
    assert s in multiset(Sort(SourceLe, specific)) <==> s in multiset(specific);
    FilterMembers(c.sourceRoutes, f, s);
  }

  lemma {:induction false} DefaultSourceIs(rs: seq<SourceRoute>, f: Family)
    ensures || (exists s :: s in rs && s.destination == DefaultPrefix(f) && DefaultSource(rs, f) == s.source)
            || (DefaultSource(rs, f) == NoAddr && forall s | s in rs :: s.destination != DefaultPrefix(f))
  {
    if rs != [] {
      var init, last := rs[..|rs| - 1], rs[|rs| - 1];
      assert rs == init + [last];
      DefaultSourceIs(init, f);
      if last.destination == DefaultPrefix(f) {
        assert last in rs;
      }
    }
  }

  lemma SameDestination(c: Config, s: SourceRoute, t: SourceRoute)
    requires DistinctDestinations(c.sourceRoutes) && s in c.sourceRoutes && t in c.sourceRoutes
    requires s.destination == t.destination
    ensures s == t
  {
    var i :| 0 <= i < |c.sourceRoutes| && c.sourceRoutes[i] == s;
    var j :| 0 <= j < |c.sourceRoutes| && c.sourceRoutes[j] == t;
  }

  /** The compiled VPN routes of a carried family: one per source route, and a default. */
  lemma VpnRouteCases(c: Config, f: Family, r: Route)
    requires Policy.Valid(c) && r in VpnRoutes(c, f)
    ensures TunnelFamilies(c).Has(f) && r == TunRoute(c, f, r.dst, r.source)
    ensures || (exists s :: s in c.sourceRoutes && r.dst == s.destination && r.source == s.source)
            || (r.dst == DefaultPrefix(f) && r.source == NoAddr
                && forall s | s in c.sourceRoutes :: s.destination != DefaultPrefix(f))
  {
    hide Policy.Valid, Sort, Filter, DefaultPrefix, DefaultSource, IsSpecific;
    DefaultSourceIs(c.sourceRoutes, f);
    var sorted := Sort(SourceLe, Filter(r => IsSpecific(r, f), c.sourceRoutes));
    var dflt := TunRoute(c, f, DefaultPrefix(f), DefaultSource(c.sourceRoutes, f));
    var specific := SpecificRoutes(c, f, sorted);
    assert VpnRoutes(c, f) == [dflt] + specific;
    hide VpnRoutes;
    if r != dflt {
      var i :| 0 <= i < |specific| && r == specific[i];
      SpecificMembers(c, f, sorted[i]);
    }
  }

  lemma DefaultCompiled(c: Config, f: Family)
    requires TunnelFamilies(c).Has(f)
    ensures TunRoute(c, f, DefaultPrefix(f), DefaultSource(c.sourceRoutes, f)) in VpnRoutes(c, f)
  {
    hide DefaultPrefix, DefaultSource, Sort, Filter, TunRoute, SpecificRoutes;
    assert VpnRoutes(c, f)[0] == TunRoute(c, f, DefaultPrefix(f), DefaultSource(c.sourceRoutes, f));
  }

  lemma SpecificCompiled(c: Config, f: Family, sorted: seq<SourceRoute>, s: SourceRoute)
    requires TunnelFamilies(c).Has(f) && s in sorted
    requires sorted == Sort(SourceLe, Filter(r => IsSpecific(r, f), c.sourceRoutes))
    ensures TunRoute(c, f, s.destination, s.source) in VpnRoutes(c, f)
  {
    hide DefaultPrefix, DefaultSource, Sort, Filter, TunRoute;
    var i :| 0 <= i < |sorted| && sorted[i] == s;
    assert VpnRoutes(c, f)[i + 1] == SpecificRoutes(c, f, sorted)[i];
  }

  lemma SourceRouteCompiled(c: Config, f: Family, s: SourceRoute)
    requires Policy.Valid(c) && TunnelFamilies(c).Has(f) && s in c.sourceRoutes && FamilyOf(s.destination.addr) == f
    ensures TunRoute(c, f, s.destination, s.source) in VpnRoutes(c, f)
  {
    assert DistinctDestinations(c.sourceRoutes);
    hide Policy.Valid, VpnRoutes, DefaultPrefix, DistinctDestinations, Sort, Filter, TunRoute, DefaultSource;
    if s.destination == DefaultPrefix(f) {
      DefaultSourceIs(c.sourceRoutes, f);
      var t :| t in c.sourceRoutes && t.destination == DefaultPrefix(f) && DefaultSource(c.sourceRoutes, f) == t.source;
      SameDestination(c, s, t);
      DefaultCompiled(c, f);
    } else {
      SpecificMembers(c, f, s);
      SpecificCompiled(c, f, Sort(SourceLe, Filter(r => IsSpecific(r, f), c.sourceRoutes)), s);
    }
  }

  ghost predicate HoldsVpnRoutes(c: Config, f: Family, t: RouteTable) {
    && (forall key | key in t :: t[key] in VpnRoutes(c, f) && KeyOf(t[key]) == key)
    && (forall r | r in VpnRoutes(c, f) :: KeyOf(r) in t)
  }

  /** The VPN table holds exactly the compiled VPN routes of its family. */
  lemma VpnTable(c: Config, main: seq<Route>, ts: Tables, f: Family)
    requires Policy.Valid(c) && c.families.Has(f) && TablesMatch(ts, Desired(c, main))
    ensures HoldsVpnRoutes(c, f, TableOf(ts, TableId(f, c.vpnTable)))
  {
    var d, id := Desired(c, main), TableId(f, c.vpnTable);
    assert OwnedTable([d.config], id);
    forall r | r in d.safeRoutes ensures IdOf(r) != id {
      SafeRoutesMembers(c, main, r);
    }
    var vpn := InstallAll(map[], d.vpnRoutes);
    InstallFrame(vpn, d.safeRoutes, id);
    assert TableOf(ts, id) == TableOf(vpn, id);
    hide SafeRoutes, VpnRoutes, Desired, Policy.Valid;
    forall key | key in TableOf(vpn, id)
      ensures TableOf(vpn, id)[key] in VpnRoutes(c, f) && KeyOf(TableOf(vpn, id)[key]) == key
    {
      InstalledFrom(map[], d.vpnRoutes, id, key);
      DesiredVpnRoutes(c, main, TableOf(vpn, id)[key]);
    }
    forall r | r in VpnRoutes(c, f) ensures KeyOf(r) in TableOf(vpn, id) {
      VpnRoutesShape(c, f, r);
      DesiredVpnRoutes(c, main, r);
      InstalledKey(map[], d.vpnRoutes, r);
    }
  }

  ghost predicate MostSpecific(c: Config, a: Addr, s: SourceRoute) {
    CoveredBy(c, a, s) && forall t | CoveredBy(c, a, t) :: t.destination.len <= s.destination.len
  }

  /** In a carried family the VPN lookup never misses, leaves on the TUN, and uses the
      source of the most specific source route that covers the destination. */
  lemma VpnLookup(c: Config, main: seq<Route>, ts: Tables, f: Family, a: Addr)
    requires Policy.Valid(c) && TunnelFamilies(c).Has(f) && c.families.Has(f) && TablesMatch(ts, Desired(c, main))
    requires a.IsValid() && a.zone == "" && a.family == f
    ensures var found := LookupRoute(TableOf(ts, TableId(f, c.vpnTable)), a);
            && found.Some?
            && Nexthops(found.value) == [Nexthop(c.tunIndex, NoAddr, 0)]
            && (forall s | MostSpecific(c, a, s) :: found.value.source == s.source)
            && ((forall s :: !CoveredBy(c, a, s)) ==> found.value.source == NoAddr)
  {
    VpnTable(c, main, ts, f);
    hide Policy.Valid, TablesMatch, Desired, VpnRoutes, LookupRoute, Nexthops;
    VpnAnswer(c, f, TableOf(ts, TableId(f, c.vpnTable)), a);
  }

  lemma VpnHits(c: Config, f: Family, t: RouteTable, a: Addr)
    requires TunnelFamilies(c).Has(f) && HoldsVpnRoutes(c, f, t)
    requires a.IsValid() && a.zone == "" && a.family == f
    ensures LookupRoute(t, a).Some?
  {
    DefaultContains(a);
    DefaultCompiled(c, f);
    hide VpnRoutes, DefaultPrefix;
    var dflt := TunRoute(c, f, DefaultPrefix(f), DefaultSource(c.sourceRoutes, f));
    assert Covers(t, KeyOf(dflt), a);
  }

  lemma VpnAnswer(c: Config, f: Family, t: RouteTable, a: Addr)
    requires Policy.Valid(c) && TunnelFamilies(c).Has(f) && HoldsVpnRoutes(c, f, t)
    requires a.IsValid() && a.zone == "" && a.family == f
    ensures var found := LookupRoute(t, a);
            && found.Some?
            && Nexthops(found.value) == [Nexthop(c.tunIndex, NoAddr, 0)]
            && (forall s | MostSpecific(c, a, s) :: found.value.source == s.source)
            && ((forall s :: !CoveredBy(c, a, s)) ==> found.value.source == NoAddr)
  {
    hide VpnRoutes, Policy.Valid, DefaultPrefix, MostSpecific, Nexthops, TunRoute, LookupRoute, CoveredBy;
    VpnHits(c, f, t, a);
    var found := LookupRoute(t, a);
    var best :| IsBest(t, a, best) && found.value == t[best];
    VpnRouteCases(c, f, found.value);
    TunRouteHop(c, f, found.value.dst, found.value.source);
    forall s | MostSpecific(c, a, s) ensures found.value.source == s.source {
      BestHasSource(c, f, t, a, best, s);
    }
    if forall s :: !CoveredBy(c, a, s) {
      Uncovered(c, f, found.value, a);
    }
  }

  lemma TunRouteHop(c: Config, f: Family, dst: Prefix, source: Addr)
    ensures Nexthops(TunRoute(c, f, dst, source)) == [Nexthop(c.tunIndex, NoAddr, 0)]
  {
  }

  lemma Uncovered(c: Config, f: Family, r: Route, a: Addr)
    requires Policy.Valid(c) && r in VpnRoutes(c, f) && r.dst.Contains(a) && forall s :: !CoveredBy(c, a, s)
    ensures r.source == NoAddr
  {
    hide Policy.Valid, VpnRoutes, DefaultPrefix, TunRoute, Prefix.Contains;
    VpnRouteCases(c, f, r);
    assert forall s | s in c.sourceRoutes && r.dst == s.destination :: CoveredBy(c, a, s);
  }

  lemma CoveringRoute(c: Config, f: Family, t: RouteTable, a: Addr, s: SourceRoute)
    requires Policy.Valid(c) && TunnelFamilies(c).Has(f) && CoveredBy(c, a, s) && a.family == f
    requires HoldsVpnRoutes(c, f, t)
    ensures Covers(t, RouteKey(s.destination, 0), a)
    ensures s.destination.Masked() == s.destination
  {
    assert SourceRouteOk(c, s);
    SourceRouteCompiled(c, f, s);
    assert KeyOf(TunRoute(c, f, s.destination, s.source)) == RouteKey(s.destination, 0);
  }

  lemma BestHasSource(c: Config, f: Family, t: RouteTable, a: Addr, best: RouteKey, s: SourceRoute)
    requires Policy.Valid(c) && TunnelFamilies(c).Has(f) && a.IsValid() && a.zone == "" && a.family == f
    requires HoldsVpnRoutes(c, f, t)
    requires IsBest(t, a, best) && MostSpecific(c, a, s)
    ensures t[best].source == s.source
  {
    CoveringRoute(c, f, t, a, s);
    assert best.dst.len >= s.destination.len;
    VpnRouteCases(c, f, t[best]);
    assert best.dst == t[best].dst;
    hide VpnRoutes;
    if exists u :: u in c.sourceRoutes && t[best].dst == u.destination && t[best].source == u.source {
      var u :| u in c.sourceRoutes && t[best].dst == u.destination && t[best].source == u.source;
      assert CoveredBy(c, a, u);
      assert SourceRouteOk(c, u);
      MaskedUnique(u.destination, s.destination, a);
      SameDestination(c, u, s);
    } else {
      DefaultContains(a);
      MaskedUnique(best.dst, s.destination, a);
      assert false;
    }
  }

  /******* Order of the source routes *******/

  lemma {:induction false} FilterPermutes(p: SourceRoute -> bool, a: seq<SourceRoute>)
    ensures forall x :: multiset(Filter(p, a))[x] == if p(x) then multiset(a)[x] else 0
  {
    if a != [] {
      FilterPermutes(p, a[1..]);
      assert a == [a[0]] + a[1..];
    }
  }

  lemma SameMembers(a: seq<SourceRoute>, b: seq<SourceRoute>, x: SourceRoute)
    requires multiset(a) == multiset(b)
    ensures x in a <==> x in b
  {
    assert x in multiset(a) <==> x in multiset(b);
  }

  lemma SameDefaultSource(c: Config, rs: seq<SourceRoute>, f: Family)
    requires DistinctDestinations(c.sourceRoutes) && multiset(rs) == multiset(c.sourceRoutes)
    ensures DefaultSource(rs, f) == DefaultSource(c.sourceRoutes, f)
  {
    hide DefaultSource, DefaultPrefix, DistinctDestinations;
    DefaultSourceIs(rs, f);
    DefaultSourceIs(c.sourceRoutes, f);
    forall s ensures s in rs <==> s in c.sourceRoutes {
      SameMembers(rs, c.sourceRoutes, s);
    }
    forall s, t | s in c.sourceRoutes && t in c.sourceRoutes && s.destination == t.destination ensures s == t {
      SameDestination(c, s, t);
    }
  }

  lemma BitKeyInjective(a: seq<bool>, b: seq<bool>)
    requires BitKey(a) == BitKey(b)
    ensures a == b
  {
    assert |a| == |BitKey(a)| == |BitKey(b)| == |b|;
    forall i | 0 <= i < |a| ensures a[i] == b[i] {
      assert BitKey(a)[i] == BitKey(b)[i];
    }
  }

  lemma SourceKeyInjective(c: Config, f: Family, s: SourceRoute, t: SourceRoute)
    requires SourceRouteOk(c, s) && SourceRouteOk(c, t)
    requires FamilyOf(s.destination.addr) == f && FamilyOf(t.destination.addr) == f
    requires SourceKey(s) == SourceKey(t)
    ensures s == t
  {
    var n := Width(f) + 1;
    var ks, kt := SourceKey(s), SourceKey(t);
    assert |AddrKey(s.destination.addr)| == |AddrKey(t.destination.addr)| == n;
    assert ks[..n] == AddrKey(s.destination.addr) && kt[..n] == AddrKey(t.destination.addr);
    assert ks[n] == s.destination.len && kt[n] == t.destination.len;
    assert ks[n + 1..] == AddrKey(s.source) && kt[n + 1..] == AddrKey(t.source);
    assert AddrKey(s.destination.addr)[1..] == BitKey(s.destination.addr.bits);
    assert AddrKey(t.destination.addr)[1..] == BitKey(t.destination.addr.bits);
    assert AddrKey(s.source)[1..] == BitKey(s.source.bits) && AddrKey(t.source)[1..] == BitKey(t.source.bits);
    BitKeyInjective(s.destination.addr.bits, t.destination.addr.bits);
    BitKeyInjective(s.source.bits, t.source.bits);
  }

  lemma SpecificSeparated(c: Config, f: Family, x: seq<SourceRoute>)
    requires Policy.Valid(c) && x == Sort(SourceLe, Filter(r => IsSpecific(r, f), c.sourceRoutes))
    ensures forall s, t | s in x && t in x && SourceLe(s, t) && SourceLe(t, s) :: s == t
  {
    assert forall s | s in c.sourceRoutes :: SourceRouteOk(c, s);
    hide Policy.Valid, SourceRouteOk, SourceKey, DefaultPrefix, LexLe, Sort, Filter;
    forall s, t | s in x && t in x && SourceLe(s, t) && SourceLe(t, s) ensures s == t {
      SpecificMembers(c, f, s);
      SpecificMembers(c, f, t);
      LexAntisymmetric(SourceKey(s), SourceKey(t));
      SourceKeyInjective(c, f, s, t);
    }
  }

  lemma SortedSpecificSame(c: Config, rs: seq<SourceRoute>, f: Family)
    requires Policy.Valid(c) && multiset(rs) == multiset(c.sourceRoutes)
    ensures Sort(SourceLe, Filter(r => IsSpecific(r, f), rs)) ==
              Sort(SourceLe, Filter(r => IsSpecific(r, f), c.sourceRoutes))
  {
    hide Policy.Valid, SourceLe, Sort, Filter, IsSpecific;
    var p := (r: SourceRoute) => IsSpecific(r, f);
    var a, b := Filter(p, c.sourceRoutes), Filter(p, rs);
    FilterPermutes(p, c.sourceRoutes);
    FilterPermutes(p, rs);
    assert multiset(a) == multiset(b);
    SourceLePreorder();
    SortSorts(SourceLe, a);
    SortSorts(SourceLe, b);
    SortPermutes(SourceLe, a);
    SortPermutes(SourceLe, b);
    SpecificSeparated(c, f, Sort(SourceLe, a));
    SortedUnique(SourceLe, Sort(SourceLe, a), Sort(SourceLe, b));
  }

  /** The compiled VPN routes do not depend on the order of the source routes. */
  lemma VpnRoutesIgnoreOrder(c: Config, d: Config, f: Family)
    requires Policy.Valid(c) && multiset(d.sourceRoutes) == multiset(c.sourceRoutes)
    requires d == c.(sourceRoutes := d.sourceRoutes)
    ensures VpnRoutes(d, f) == VpnRoutes(c, f)
  {
    SameDefaultSource(c, d.sourceRoutes, f);
    SortedSpecificSame(c, d.sourceRoutes, f);
    hide Sort, Filter, IsSpecific, DefaultSource, DefaultPrefix, Policy.Valid;
    assert TunnelFamilies(d) == TunnelFamilies(c);
    var x := Sort(SourceLe, Filter(r => IsSpecific(r, f), c.sourceRoutes));
    assert SpecificRoutes(c, f, x) == SpecificRoutes(d, f, x);
  }

  /******* The safe table *******/

  lemma ReplayedSame(c: Config, m: Route)
    ensures var r := SafeTableRoute(m, c.safeTable);
            && r.dst == m.dst && r.family == m.family && r.link == m.link && r.priority == m.priority
            && |Nexthops(r)| == |Nexthops(m)|
            && forall i | 0 <= i < |Nexthops(m)| ::
                Nexthops(r)[i].link == Nexthops(m)[i].link && Nexthops(r)[i].gateway == Nexthops(m)[i].gateway
  {
  }

  /** The safe table holds exactly copies of the snapshot's safe routes of its family. */
  lemma SafeTable(c: Config, main: seq<Route>, ts: Tables, f: Family)
    requires Policy.Valid(c) && c.families.Has(f) && TablesMatch(ts, Desired(c, main))
    ensures forall key | key in TableOf(ts, TableId(f, c.safeTable)) ::
              var r := TableOf(ts, TableId(f, c.safeTable))[key];
              exists m ::
                m in main && m.family == f && Replayed(c, m) && KeyOf(m) == key && r == SafeTableRoute(m, c.safeTable)
    ensures forall m | m in main && m.family == f && Replayed(c, m) :: KeyOf(m) in TableOf(ts, TableId(f, c.safeTable))
  {
    var d, id := Desired(c, main), TableId(f, c.safeTable);
    assert OwnedTable([d.config], id);
    var vpn := InstallAll(map[], d.vpnRoutes);
    forall r | r in d.vpnRoutes ensures IdOf(r) != id {
      DesiredVpnRoutes(c, main, r);
    }
    InstallFrame(map[], d.vpnRoutes, id);
    assert TableOf(vpn, id) == map[];
    var all := InstallAll(vpn, d.safeRoutes);
    assert TableOf(ts, id) == TableOf(all, id);
    assert d.safeRoutes == SafeRoutes(c, main);
    hide SafeRoutes, VpnRoutes, Desired, Policy.Valid, Replayed;
    forall key | key in TableOf(all, id)
      ensures exists m ::
                && m in main && m.family == f && Replayed(c, m) && KeyOf(m) == key
                && TableOf(all, id)[key] == SafeTableRoute(m, c.safeTable)
    {
      InstalledFrom(vpn, d.safeRoutes, id, key);
      SafeRoutesMembers(c, main, TableOf(all, id)[key]);
    }
    forall m | m in main && m.family == f && Replayed(c, m) ensures KeyOf(m) in TableOf(all, id) {
      SafeRoutesMembers(c, main, SafeTableRoute(m, c.safeTable));
      InstalledKey(vpn, d.safeRoutes, SafeTableRoute(m, c.safeTable));
    }
  }

  /** What the safe table decides never leaks: it leaves on another link than the TUN,
      through a non-default prefix, and through a gateway only inside a private range.
      It decides exactly the destinations that some safe main route covers. */
  lemma SafeLookup(c: Config, main: seq<Route>, ts: Tables, f: Family, a: Addr)
    requires Policy.Valid(c) && c.families.Has(f) && TablesMatch(ts, Desired(c, main))
    ensures var found := LookupRoute(TableOf(ts, TableId(f, c.safeTable)), a);
            && (found.Some? <==>
                  exists m :: m in main && m.family == f && LeadsToPeers(m, c.tunIndex) && m.dst.Contains(a))
            && (found.Some? ==>
                  && (forall h | h in Nexthops(found.value) :: h.link != c.tunIndex)
                  && found.value.link != c.tunIndex && 0 < found.value.dst.len && found.value.dst.Contains(a)
                  && ((exists h :: h in Nexthops(found.value) && h.gateway.IsValid()) ==> InPrivateRange(a)))
  {
    var t := TableOf(ts, TableId(f, c.safeTable));
    SafeTable(c, main, ts, f);
    hide Policy.Valid, TablesMatch, Desired, ClassifySafeRoute, SafeTableRoute, InPrivateRange, LeadsToPeers;
    var found := LookupRoute(t, a);
    forall m | m in main && m.family == f ensures Replayed(c, m) <==> LeadsToPeers(m, c.tunIndex) {
      SafeRouteExactly(m, c.tunIndex);
    }
    forall m | m in main && m.family == f && Replayed(c, m) && m.dst.Contains(a) ensures found.Some? {
      assert Covers(t, KeyOf(m), a);
    }
    if found.Some? {
      var best :| IsBest(t, a, best) && found.value == t[best];
      var m :| && m in main && m.family == f && Replayed(c, m) && KeyOf(m) == best
               && found.value == SafeTableRoute(m, c.safeTable);
      SafeCopyDoesNotLeak(c, m, a);
    }
  }

  lemma SafeCopyDoesNotLeak(c: Config, m: Route, a: Addr)
    requires Replayed(c, m) && m.dst.Contains(a)
    ensures var r := SafeTableRoute(m, c.safeTable);
            && (forall h | h in Nexthops(r) :: h.link != c.tunIndex)
            && r.link != c.tunIndex && 0 < r.dst.len && r.dst.Contains(a)
            && ((exists h :: h in Nexthops(r) && h.gateway.IsValid()) ==> InPrivateRange(a))
  {
    SafeRouteDoesNotLeak(m, c.tunIndex, a);
    ReplayedSame(c, m);
    hide SafeTableRoute, ClassifySafeRoute, InPrivateRange, Nexthops;
    var r := SafeTableRoute(m, c.safeTable);
    forall h | h in Nexthops(r) ensures h.link != c.tunIndex && (h.gateway.IsValid() ==> InPrivateRange(a)) {
      var i :| 0 <= i < |Nexthops(r)| && Nexthops(r)[i] == h;
      assert Nexthops(m)[i] in Nexthops(m);
    }
  }

  /** Which routes are copied, and what into, said outright. */
  lemma SafeRoutesExactly(c: Config, main: seq<Route>, x: Route)
    ensures x in SafeRoutes(c, main) <==>
              exists r :: && r in main && c.families.Has(r.family) && LeadsToPeers(r, c.tunIndex)
                          && CopiedTo(r, c.safeTable, x)
  {
    hide LeadsToPeers, CopiedTo, ClassifySafeRoute, SafeTableRoute, SafeRoutes;
    SafeRoutesMembers(c, main, x);
    forall r | r in main
      ensures Replayed(c, r) <==> c.families.Has(r.family) && LeadsToPeers(r, c.tunIndex)
      ensures x == SafeTableRoute(r, c.safeTable) <==> CopiedTo(r, c.safeTable, x)
    {
      SafeRouteExactly(r, c.tunIndex);
      SafeCopyExactly(r, c.safeTable, x);
    }
  }

  /** The route itself or one of its nexthops has a gateway. */
  predicate ThroughGateway(r: Route) {
    r.gateway.IsValid() || exists i | 0 <= i < |r.multipath| :: r.multipath[i].gateway.IsValid()
  }

  /** The install order is a rearrangement of the replayed routes in which every route
      that needs a gateway comes after all that do not. */
  lemma SafeInstallOrder(c: Config, main: seq<Route>)
    ensures multiset(SafeRoutes(c, main)) == multiset(Replay(c, main))
    ensures forall i, j | 0 <= i < j < |SafeRoutes(c, main)| ::
              ThroughGateway(SafeRoutes(c, main)[i]) ==> ThroughGateway(SafeRoutes(c, main)[j])
  {
    SortPermutes(SafeLe, Replay(c, main));
    SafeLePreorder();
    SortSorts(SafeLe, Replay(c, main));
    var rs := SafeRoutes(c, main);
    forall i, j | 0 <= i < j < |rs| ensures ThroughGateway(rs[i]) ==> ThroughGateway(rs[j]) {
      assert SafeLe(rs[i], rs[j]);
      assert SafeKey(rs[i])[0] == (if DependsOnGateway(rs[i]) then 1 else 0);
      assert SafeKey(rs[j])[0] == (if DependsOnGateway(rs[j]) then 1 else 0);
    }
  }
}
