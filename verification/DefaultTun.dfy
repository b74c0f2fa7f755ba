/** The active default TUN: building its configuration, and changing its addresses and
    routes with an undo for every step. */
module DefaultTuns {
  import opened Netip
  import opened Policy
  import opened Strings
  import opened TunOptions
  import Addresses
  import TunLinks

  datatype Built = Built(addrs: seq<Prefix>, dns: Addr, routes: seq<Prefix>, config: Config)

  /** Options that must be accepted: everything parses, a DNS address is at hand, and the
      source routes use the requested addresses. */
  ghost predicate Buildable(addrs: seq<Option<Cidr>>, fallback: Fallback, dns: Addr, routes: seq<Option<Cidr>>,
                            sources: seq<SourceRoute>) {
    && (forall x | x in addrs :: x.Some?) && (forall x | x in routes :: x.Some?) && !fallback.Malformed?
    && (fallback.Given? || (dns.IsValid() && Assigned(Kept(addrs), dns)))
    && (forall r | r in sources :: SourceRequestOk(Kept(addrs), r)) && SourcesAgree(sources)
  }

  lemma AssignedPrefix(a: seq<Prefix>, b: seq<Prefix>, x: Addr)
    requires a <= b && Assigned(a, x)
    ensures Assigned(b, x)
  {
    var p :| p in a && p.addr == x;
    assert p in b;
  }

  lemma RequestsStayOk(a: seq<Prefix>, b: seq<Prefix>, rs: seq<SourceRoute>)
    requires a <= b && forall r | r in rs :: SourceRequestOk(a, r)
    ensures forall r | r in rs :: SourceRequestOk(b, r)
  {
    forall r | r in rs ensures SourceRequestOk(b, r) {
      RequestParts(a, r);
      RequestParts(b, r);
      AssignedPrefix(a, b, r.source);
    }
  }

  /** `base` carries the TUN index, tables, priorities and marks; the marks were checked
      when the system was created. */
  method BuildConfig(base: Config, addrs: seq<Option<Cidr>>, fallback: Fallback, dns: Addr, routes: seq<Option<Cidr>>,
                     sources: seq<SourceRoute>) returns (r: Option<Built>)
    requires BaseOk(base)
    ensures r.Some? ==>
              && Policy.Valid(r.value.config)
              && r.value.config ==
                  WithFamilies(base.(sourceRoutes := r.value.config.sourceRoutes), r.value.addrs, r.value.routes)
              && SourcesAssigned(r.value.config.sourceRoutes, r.value.addrs)
              && IsNormalized(sources, r.value.config.sourceRoutes)
              && r.value.dns.IsValid() && Assigned(r.value.addrs, r.value.dns)
              && (dns.IsValid() && Assigned(r.value.addrs, dns) ==> r.value.dns == dns)
              && (forall p | p in r.value.addrs + r.value.routes :: p.IsValid())
              && Carries(r.value.config, r.value.addrs + r.value.routes)
              && ListOk(r.value.addrs, fallback)
    ensures Buildable(addrs, fallback, dns, routes, sources) ==> r.Some?
  {
    hide Policy.Valid, BaseOk, IsNormalized, SourceRequestOk, SourcesAgree, Distinct, Carries, FamiliesOf;
    hide Addr.Is4In6, Addr.IsLoopback;
    var a := NormalizeTunAddrs(addrs, fallback, dns);
    if a.None? || !a.value.dns.IsValid() {
      return None;
    }
    var rs := NormalizeTunRoutes(routes);
    if rs.None? {
      return None;
    }
    KeptFacts(addrs);
    FinalListOk(Kept(addrs), fallback);
    if Buildable(addrs, fallback, dns, routes, sources) {
      RequestsStayOk(Kept(addrs), a.value.addrs, sources);
    }
    var ss := NormalizeTunSourceRoutes(a.value.addrs, sources);
    if ss.None? {
      return None;
    }
    var c := base.(sourceRoutes := ss.value);
    NormalizedShape(a.value.addrs, sources, ss.value);
    BaseSame(base, c);
    NormalizedDistinct(sources, ss.value);
    FamiliesKeepValid(c, a.value.addrs, rs.value);
    CarriesItsPrefixes(c, a.value.addrs, rs.value);
    var carried := RouteFamilies(a.value.addrs, rs.value);
    c := c.(tunnelFamilies := carried, families := carried);
    if c.strictness == Strict {
      c := c.(families := BOTH);
    }
    return Some(Built(a.value.addrs, a.value.dns, rs.value, c));
  }

  lemma BaseSame(c: Config, d: Config)
    requires BaseOk(c) && d == c.(sourceRoutes := d.sourceRoutes)
    ensures BaseOk(d)
  {
  }

  lemma NormalizedDistinct(rs: seq<SourceRoute>, out: seq<SourceRoute>)
    requires IsNormalized(rs, out)
    ensures DistinctDestinations(out)
  {
  }

  /** What a dynamic update may touch: the link's addresses, the main-table routes
      through it, the stored intent, and what the routing manager has applied. */
  datatype Situation = Situation(linkAddrs: set<Prefix>, mainRoutes: set<Prefix>, addrs: seq<Prefix>,
                                 routes: seq<Prefix>, config: Option<Config>, applied: Option<Config>)

  function Members(ps: seq<Prefix>): set<Prefix> {
    set p | p in ps
  }

  /** The link after adding a prefix: an IPv6 address is held under one length only. */
  function WithAddr(link: set<Prefix>, p: Prefix): set<Prefix> {
    (set q | q in link && (q.addr != p.addr || !q.addr.Is6())) + {p}
  }

  /** The list holds the added IPv6 address under another length. */
  predicate Shadowed(addrs: seq<Prefix>, p: Prefix) {
    exists q | q in addrs :: q != p && q.addr == p.addr && q.addr.Is6()
  }

  /** Link and list agree after an addition exactly when the list did not hold the IPv6
      address under another length. */
  lemma AddedAgrees(addrs: seq<Prefix>, p: Prefix)
    ensures WithAddr(Members(addrs), p) == Members(addrs) + {p} <==> !Shadowed(addrs, p)
    ensures p in WithAddr(Members(addrs), p) && (p in Members(addrs) <==> p in addrs)
  {
    hide Addr.Is6;
    if Shadowed(addrs, p) {
      var q :| q in addrs && q != p && q.addr == p.addr && q.addr.Is6();
      assert q in Members(addrs) + {p} && q !in WithAddr(Members(addrs), p);
    }
  }

  /** What every stored list keeps: no loopback address other than the fallback's, and the
      fallback's address is there. */
  ghost predicate ListOk(addrs: seq<Prefix>, fallback: Fallback) {
    && !fallback.Malformed?
    && (forall q | q in addrs :: !q.addr.IsLoopback() || (fallback.Given? && fallback.prefix == q))
    && (fallback.Given? ==> Assigned(addrs, fallback.prefix.addr))
  }

  lemma FinalListOk(kept: seq<Prefix>, fallback: Fallback)
    requires !fallback.Malformed? && forall q | q in kept :: !q.addr.IsLoopback()
    ensures ListOk(WithFallback(kept, fallback), fallback)
  {
    hide Addr.IsLoopback;
    if fallback.Given? && !Assigned(kept, fallback.prefix.addr) {
      assert fallback.prefix in kept + [fallback.prefix];
    }
  }

  /******* What the link takes *******/

  /** A link takes a list without IPv4-mapped prefixes and without an address under two lengths. */
  predicate LinkTakes(want: set<Prefix>) {
    && (forall p | p in want :: !p.addr.Is4In6())
    && (forall p, q | p in want && q in want && p.addr == q.addr :: p == q)
  }

  lemma TakesIff(want: seq<Prefix>)
    requires forall p | p in want :: p.IsValid()
    ensures LinkTakes(Members(want)) <==> Addresses.Consistent(want) && Addresses.Plain(want)
  {
    hide Addr.Is4In6;
  }

  /** Setting the addresses of a link: without call failures it succeeds exactly for a list
      the link takes, and success leaves exactly that list. */
  method SetTunAddrs(link: TunLinks.TunLink, want: seq<Prefix>) returns (ok: bool)
    requires Addresses.LinkOk(link.addrs) && forall p | p in want :: p.IsValid()
    modifies link
    ensures Addresses.LinkOk(link.addrs) && old(link.calls) <= link.calls
    ensures ok ==> LinkTakes(Members(want)) && link.addrs.Keys == Members(want)
    ensures link.NoFailure(old(link.calls)) ==> (ok <==> LinkTakes(Members(want)))
  {
    hide Addresses.LinkOk, Addresses.Consistent, Addresses.Plain, Addresses.Good, Addr.Is4In6, LinkTakes;
    hide Addresses.Keeps, Addresses.MappedFree, Addresses.Clashless;
    TakesIff(want);
    ok := TunLinks.SetPrefixes(link, want);
  }

  /** Adding one address to a link: without call failures it succeeds exactly for a prefix
      that is not IPv4-mapped. */
  method AddTunAddr(link: TunLinks.TunLink, p: Prefix) returns (ok: bool)
    requires Addresses.LinkOk(link.addrs) && p.IsValid()
    modifies link
    ensures Addresses.LinkOk(link.addrs) && old(link.calls) <= link.calls
    ensures ok ==> !p.addr.Is4In6() && link.addrs.Keys == WithAddr(old(link.addrs).Keys, p)
    ensures link.NoFailure(old(link.calls)) ==> (ok <==> !p.addr.Is4In6())
  {
    hide Addr.Is4In6, Addresses.Clash, Addresses.Exec, Addresses.Keeps, WithAddr;
    ghost var was := link.addrs;
    ok := TunLinks.AddPrefix(link, p);
    if ok {
      AddedKeys(was, p, link.addrs);
    }
  }

  lemma AddedKeys(l: Addresses.Link, p: Prefix, k: Addresses.Link)
    requires Addresses.LinkOk(k) && Addresses.Good(k, p) && Addresses.OthersKept(l, p, k)
    requires !p.addr.Is6() ==> forall q | q in l :: q in k
    ensures k.Keys == WithAddr(l.Keys, p)
  {
    hide Addr.Is4In6, Addr.Is6;
  }

  class DefaultTun {
    var linkAddrs: set<Prefix>
    var mainRoutes: set<Prefix>
    var addrs: seq<Prefix>
    var routes: seq<Prefix>
    var dns: Addr
    const fallback: Fallback
    var config: Option<Config>
    var applied: Option<Config>
    var calls: nat
    /** Which calls fail, and what each call leaves behind beyond its promise: a failed
        call may leave anything, and setting addresses may create connected routes. */
    const fails: nat -> bool
    const leftAddrs: nat -> set<Prefix>
    const leftRoutes: nat -> set<Prefix>

    constructor (built: Built, fallback: Fallback, fails: nat -> bool, leftAddrs: nat -> set<Prefix>,
                 leftRoutes: nat -> set<Prefix>)
      requires Policy.Valid(built.config) && SourcesAssigned(built.config.sourceRoutes, built.addrs)
      requires built.dns.IsValid() && Assigned(built.addrs, built.dns) && forall p | p in built.addrs :: p.IsValid()
      requires ListOk(built.addrs, fallback)
      ensures Valid() && InSync() && config == Some(built.config) && linkAddrs == Members(addrs)
    {
      linkAddrs, mainRoutes := set p | p in built.addrs, {};
      addrs, routes, dns := built.addrs, built.routes, built.dns;
      config, applied, calls := Some(built.config), Some(built.config), 0;
      this.fallback, this.fails, this.leftAddrs, this.leftRoutes := fallback, fails, leftAddrs, leftRoutes;
    }

    function Now(): Situation
      reads this
    {
      Situation(linkAddrs, mainRoutes, addrs, routes, config, applied)
    }

    /** The stored configuration passes validation, its sources and the DNS address are
        assigned, and the stored list is as the normaliser leaves it. */
    ghost predicate Valid()
      reads this
    {
      && dns.IsValid() && Assigned(addrs, dns) && (forall p | p in addrs :: p.IsValid()) && ListOk(addrs, fallback)
      && (config.Some? ==> Policy.Valid(config.value) && SourcesAssigned(config.value.sourceRoutes, addrs))
    }

    ghost predicate InSync()
      reads this
    {
      applied == config
    }

    ghost predicate NoFailure(from: nat)
      reads this
    {
      forall n | from <= n < calls :: !fails(n)
    }

    /******* Calls that may fail *******/

    method Call() returns (ok: bool)
      modifies this`calls
      ensures calls == old(calls) + 1 && ok == !fails(old(calls))
    {
      ok := !fails(calls);
      calls := calls + 1;
    }

    method SetLinkAddrs(want: set<Prefix>) returns (ok: bool)
      modifies this`calls, this`linkAddrs, this`mainRoutes
      ensures calls == old(calls) + 1 && ok == (!fails(old(calls)) && LinkTakes(want))
      ensures ok ==> linkAddrs == want
    {
      mainRoutes := leftRoutes(calls);
      linkAddrs := leftAddrs(calls);
      ok := Call();
      ok := ok && LinkTakes(want);
      if ok {
        linkAddrs := want;
      }
    }

    method AddLinkAddr(p: Prefix) returns (ok: bool)
      modifies this`calls, this`linkAddrs, this`mainRoutes
      ensures calls == old(calls) + 1 && ok == (!fails(old(calls)) && !p.addr.Is4In6())
      ensures ok ==> linkAddrs == WithAddr(old(linkAddrs), p)
    {
      var next := WithAddr(linkAddrs, p);
      mainRoutes := leftRoutes(calls);
      linkAddrs := leftAddrs(calls);
      ok := Call();
      ok := ok && !p.addr.Is4In6();
      if ok {
        linkAddrs := next;
      }
    }

    method SetMainRoutes(want: set<Prefix>) returns (ok: bool)
      modifies this`calls, this`mainRoutes
      ensures calls == old(calls) + 1 && ok == !fails(old(calls))
      ensures ok ==> mainRoutes == want
    {
      mainRoutes := leftRoutes(calls);
      ok := Call();
      if ok {
        mainRoutes := want;
      }
    }

    /** The manager validates first and keeps its applied state on failure. */
    method ApplyRouting(c: Config) returns (ok: bool)
      modifies this`calls, this`applied
      ensures calls == old(calls) + 1 && ok == (!fails(old(calls)) && Policy.Valid(c))
      ensures ok ==> applied == Some(c)
      ensures !ok ==> applied == old(applied)
    {
      ok := Call();
      var valid := Validate(c);
      ok := ok && valid;
      if ok {
        applied := Some(c);
      }
    }

    method RollbackRouting(c: Config) returns (ok: bool)
      modifies this`calls, this`applied
      ensures calls == old(calls) + 1 && ok == (!fails(old(calls)) && Policy.Valid(c))
      ensures ok ==> applied == None
      ensures !ok ==> applied == old(applied)
    {
      ok := Call();
      var valid := Validate(c);
      ok := ok && valid;
      if ok {
        applied := None;
      }
    }

    /******* Restoring *******/

    method RestoreLink(wasAddrs: set<Prefix>, wasRoutes: set<Prefix>) returns (ok: bool)
      modifies this`calls, this`linkAddrs, this`mainRoutes
      ensures old(calls) <= calls && (NoFailure(old(calls)) ==> (ok <==> LinkTakes(wasAddrs)))
      ensures ok ==> linkAddrs == wasAddrs && mainRoutes == wasRoutes
    {
      var a := SetLinkAddrs(wasAddrs);
      var r := SetMainRoutes(wasRoutes);
      ok := a && r;
    }

    method RestoreRouting(was: Config, failed: Config) returns (ok: bool)
      modifies this`calls, this`applied
      ensures old(calls) <= calls && (NoFailure(old(calls)) && Policy.Valid(was) && Policy.Valid(failed) ==> ok)
      ensures ok ==> applied == Some(was)
    {
      var gone := RollbackRouting(failed);
      var back := ApplyRouting(was);
      ok := gone && back;
    }

    /******* Updates *******/

    /** Link, main routes and routing manager in turn, with the undo of whatever was done. */
    method ChangeLink(want: seq<Prefix>, added: Option<Prefix>, was: Config, next: Config,
                      wasAddrs: set<Prefix>, wasRoutes: set<Prefix>) returns (ok: bool, ghost restored: bool)
      requires Policy.Valid(next) && linkAddrs == wasAddrs && mainRoutes == wasRoutes
      modifies this`calls, this`linkAddrs, this`mainRoutes, this`applied
      ensures old(calls) <= calls
      ensures ok ==> if added.Some? then !added.value.addr.Is4In6() else LinkTakes(Members(want))
      ensures NoFailure(old(calls)) ==>
                (ok <==> if added.Some? then !added.value.addr.Is4In6() else LinkTakes(Members(want)))
      ensures ok ==> mainRoutes == {} && applied == Some(next)
      ensures ok && added.None? ==> linkAddrs == Members(want)
      ensures ok && added.Some? ==> linkAddrs == WithAddr(wasAddrs, added.value)
      ensures !ok && restored && old(applied) == Some(was) ==>
                linkAddrs == wasAddrs && mainRoutes == wasRoutes && applied == Some(was)
    {
      hide Policy.Valid, LinkTakes, Addr.Is4In6, WithAddr, Members;
      restored := true;
      if added.None? {
        ok := SetLinkAddrs(Members(want));
      } else {
        ok := AddLinkAddr(added.value);
      }
      if !ok {
        var back := RestoreLink(wasAddrs, wasRoutes);
        return false, back;
      }
      ok := SetMainRoutes({});
      if !ok {
        var back := RestoreLink(wasAddrs, wasRoutes);
        return false, back;
      }
      ok := ApplyRouting(next);
      if !ok {
        var link := RestoreLink(wasAddrs, wasRoutes);
        var routing := RestoreRouting(was, next);
        return false, link && routing;
      }
    }

    /** All or nothing: an error whose restoring calls succeeded leaves everything as it
        was, whichever step failed; the stored intent never changes on an error. */
    method UpdateAddrs(want: seq<Prefix>, added: Option<Prefix>) returns (ok: bool, ghost restored: bool)
      requires Valid() && Assigned(want, dns) && (forall p | p in want :: p.IsValid()) && ListOk(want, fallback)
      modifies this
      ensures Valid() && dns == old(dns)
      ensures !ok ==> addrs == old(addrs) && routes == old(routes) && config == old(config)
      ensures !ok && restored && old(InSync()) ==> Now() == old(Now())
      ensures ok ==> old(config).Some? && addrs == want && routes == old(routes) && mainRoutes == {} && InSync()
      ensures ok ==> config == Some(WithFamilies(old(config).value, want, routes))
      ensures ok && (forall p | p in routes :: p.IsValid()) ==> Carries(config.value, want + routes)
      ensures ok && added.None? ==> linkAddrs == Members(want)
      ensures ok && added.Some? ==> linkAddrs == WithAddr(old(linkAddrs), added.value)
      ensures old(calls) <= calls
      ensures NoFailure(old(calls)) ==>
                (ok <==> && old(config).Some? && SourcesAssigned(old(config).value.sourceRoutes, want)
                         && if added.Some? then !added.value.addr.Is4In6() else LinkTakes(Members(want)))
    {
      hide Policy.Valid, BaseOk, FamiliesOf, Carries, LinkTakes, Addr.Is4In6, Addr.IsLoopback, WithAddr, Members;
      hide ListOk;
      restored := true;
      if config.None? {
        return false, true;
      }
      var own := ValidateSourceAddrs(want, config.value.sourceRoutes);
      if !own {
        return false, true;
      }
      var listed := Call();
      if !listed {
        return false, true;
      }
      var wasAddrs := linkAddrs;
      listed := Call();
      if !listed {
        return false, true;
      }
      var wasRoutes := mainRoutes;
      var was := config.value;
      var carried := RouteFamilies(want, routes);
      var next := was.(tunnelFamilies := carried, families := if was.strictness == Strict then BOTH else carried);
      ValidParts(was);
      FamiliesKeepValid(was, want, routes);
      CarriesItsPrefixes(was, want, routes);
      ok, restored := ChangeLink(want, added, was, next, wasAddrs, wasRoutes);
      if !ok {
        return;
      }
      addrs := want;
      config := Some(next);
    }

    method SetRoutes(want: seq<Prefix>) returns (ok: bool, ghost restored: bool)
      requires Valid()
      modifies this
      ensures Valid() && dns == old(dns) && addrs == old(addrs) && linkAddrs == old(linkAddrs)
      ensures !ok ==> routes == old(routes) && config == old(config)
      ensures !ok && restored && old(InSync()) ==> Now() == old(Now())
      ensures ok ==> old(config).Some? && routes == want && mainRoutes == {} && InSync()
      ensures ok ==> config == Some(WithFamilies(old(config).value, addrs, want))
      ensures ok && (forall p | p in want :: p.IsValid()) ==> Carries(config.value, addrs + want)
      ensures old(calls) <= calls && (old(config).Some? && NoFailure(old(calls)) ==> ok)
    {
      hide Policy.Valid, BaseOk, FamiliesOf, Carries, Addr.IsLoopback, ListOk, SourcesAssigned, DistinctDestinations;
      hide SourceShapeOk, Assigned, Prefix.IsValid, Addr.Is4, Addr.Is6;
      restored := true;
      if config.None? {
        return false, true;
      }
      var listed := Call();
      if !listed {
        return false, true;
      }
      var wasRoutes := mainRoutes;
      var was := config.value;
      var carried := RouteFamilies(addrs, want);
      var next := was.(tunnelFamilies := carried, families := if was.strictness == Strict then BOTH else carried);
      ValidParts(was);
      FamiliesKeepValid(was, addrs, want);
      CarriesItsPrefixes(was, addrs, want);
      ok := SetMainRoutes({});
      if !ok {
        var back := SetMainRoutes(wasRoutes);
        return false, back;
      }
      ok := ApplyRouting(next);
      if !ok {
        var main := SetMainRoutes(wasRoutes);
        var routing := RestoreRouting(was, next);
        return false, main && routing;
      }
      routes := want;
      config := Some(next);
    }

    /** Replaces the addresses; the DNS address may not change. Without call failures it
        succeeds exactly for a list that parses, keeps the DNS address and every source
        assigned, and is one the link takes. */
    method SetAddrs(request: seq<Option<Cidr>>) returns (ok: bool, ghost restored: bool)
      requires Valid()
      modifies this
      ensures Valid() && dns == old(dns)
      ensures !ok ==> addrs == old(addrs) && routes == old(routes) && config == old(config)
      ensures !ok && restored && old(InSync()) ==> Now() == old(Now())
      ensures ok ==> InSync() && linkAddrs == Members(addrs)
      ensures ok ==> (forall x | x in request :: x.Some?) && addrs == WithFallback(Kept(request), fallback)
      ensures old(calls) <= calls
      ensures NoFailure(old(calls)) ==>
                (ok <==> old(config).Some? && Settable(request, fallback, dns, old(config).value.sourceRoutes))
    {
      hide Policy.Valid, WithFamilies, WithFallback, LinkTakes, Addr.IsLoopback, Members;
      restored := true;
      var normalized := NormalizeTunAddrs(request, fallback, dns);
      if normalized.None? || normalized.value.dns != dns {
        return false, true;
      }
      KeptFacts(request);
      FinalListOk(Kept(request), fallback);
      ok, restored := UpdateAddrs(normalized.value.addrs, None);
    }

    /** Adds one address. Without call failures it succeeds exactly for a prefix that is not
        IPv4-mapped. Link and list then agree as before, unless the prefix is a loopback one
        or the list has the added IPv6 address under another length. */
    method AddAddr(p: Cidr) returns (ok: bool, ghost restored: bool)
      requires Valid()
      modifies this
      ensures Valid() && dns == old(dns) && old(calls) <= calls
      ensures !ok ==> addrs == old(addrs) && routes == old(routes) && config == old(config)
      ensures !ok && restored && old(InSync()) ==> Now() == old(Now())
      ensures p in old(addrs) ==> ok && Now() == old(Now())
      ensures p !in old(addrs) && NoFailure(old(calls)) ==> (ok <==> old(config).Some? && !p.addr.Is4In6())
      ensures ok && p !in old(addrs) ==>
                && InSync() && linkAddrs == WithAddr(old(linkAddrs), p)
                && Members(addrs) == Members(old(addrs)) + if p.addr.IsLoopback() then {} else {p}
      ensures ok && p !in old(addrs) && old(linkAddrs) == Members(old(addrs)) ==>
                (linkAddrs == Members(addrs) <==> !p.addr.IsLoopback() && !Shadowed(old(addrs), p))
    {
      assert !fallback.Malformed?;
      hide Policy.Valid, WithFamilies, Addr.IsLoopback, Addr.Is4In6, WithAddr, Shadowed, Members, WithFallback, ListOk;
      restored := true;
      if p in addrs {
        return true, true;
      }
      ghost var stored := addrs;
      var request: seq<Option<Cidr>> := [];
      for i := 0 to |addrs|
        invariant Valid() && Now() == old(Now()) && dns == old(dns) && calls == old(calls)
        invariant forall x | x in request :: x.Some?
        invariant forall q: Cidr :: Some(q) in request <==> q in addrs[..i]
      {
        assert addrs[i] in addrs;
        var q: Cidr := addrs[i];
        request := request + [Some(q)];
      }
      assert addrs[..|addrs|] == addrs;
      request := request + [Some(p)];
      KeptFacts(request);
      FinalListOk(Kept(request), fallback);
      FinalMembers(stored, p, Kept(request), fallback);
      var normalized := NormalizeTunAddrs(request, fallback, dns);
      MembersAssigned(stored, normalized.value.addrs, dns);
      if config.Some? {
        forall r | r in config.value.sourceRoutes ensures Assigned(normalized.value.addrs, r.source) {
          MembersAssigned(stored, normalized.value.addrs, r.source);
        }
      }
      if normalized.None? || normalized.value.dns != dns {
        return false, true;
      }
      ok, restored := UpdateAddrs(normalized.value.addrs, Some(p));
      AddedAgrees(stored, p);
    }
  }

  /** What a replacement must meet. */
  ghost predicate Settable(request: seq<Option<Cidr>>, fallback: Fallback, dns: Addr, sources: seq<SourceRoute>) {
    && (forall x | x in request :: x.Some?)
    && var all := WithFallback(Kept(request), fallback);
       Assigned(all, dns) && SourcesAssigned(sources, all) && LinkTakes(Members(all))
  }

  /** Normalising the stored list with one more prefix adds that prefix, or nothing for a loopback one. */
  lemma FinalMembers(stored: seq<Prefix>, p: Prefix, kept: seq<Prefix>, fallback: Fallback)
    requires ListOk(stored, fallback) && p !in stored
    requires forall q :: q in kept <==> (q in stored || q == p) && !q.addr.IsLoopback()
    ensures Members(WithFallback(kept, fallback)) == Members(stored) + if p.addr.IsLoopback() then {} else {p}
  {
    hide Addr.IsLoopback;
    var all := WithFallback(kept, fallback);
    if fallback.Given? && !Assigned(kept, fallback.prefix.addr) {
      var q :| q in stored && q.addr == fallback.prefix.addr;
      assert q !in kept;
      assert q == fallback.prefix;
      assert q in all;
    }
    forall q | q in stored ensures q in all {
      if q.addr.IsLoopback() {
        LoopbackStays(kept, q, fallback);
      }
    }
  }

  lemma LoopbackStays(kept: seq<Prefix>, q: Prefix, fallback: Fallback)
    requires fallback.Given? && fallback.prefix == q && q.addr.IsLoopback()
    requires forall x | x in kept :: !x.addr.IsLoopback()
    ensures q in WithFallback(kept, fallback)
  {
    hide Addr.IsLoopback;
  }

  lemma MembersAssigned(a: seq<Prefix>, b: seq<Prefix>, x: Addr)
    requires Members(a) <= Members(b) && Assigned(a, x)
    ensures Assigned(b, x)
  {
    var p :| p in a && p.addr == x;
    assert p in Members(a);
  }

  /** Every source address must stay assigned. */
  method ValidateSourceAddrs(addrs: seq<Prefix>, rs: seq<SourceRoute>) returns (ok: bool)
    ensures ok <==> SourcesAssigned(rs, addrs)
  {
    var own: set<Addr> := {};
    for i := 0 to |addrs|
      invariant forall a :: a in own <==> Assigned(addrs[..i], a)
    {
      assert addrs[..i + 1] == addrs[..i] + [addrs[i]];
      AssignedMore(addrs[..i], addrs[..i + 1], addrs[i]);
      own := own + {addrs[i].addr};
    }
    assert addrs[..|addrs|] == addrs;
    for i := 0 to |rs|
      invariant forall j | 0 <= j < i :: Assigned(addrs, rs[j].source)
    {
      if rs[i].source !in own {
        assert rs[i] in rs;
        return false;
      }
    }
    return true;
  }
}
