/** Configuration checks and the compiler from a configuration and a snapshot of
    the main table to policy rules, VPN routes and safe routes. */
module Policy {
  import opened Netip
  import opened Order

  const RT_TABLE_MAIN := 254
  const RT_TABLE_LOCAL := 255
  const RT_TABLE_DEFAULT := 253
  const DEFAULT_PRIORITY_SPAN := 32
  const FIRST_KERNEL_BUILTIN_PRIORITY := 32766
  const OFFSET_APP_MAIN := 0
  const OFFSET_APP_UNREACHABLE := 1
  const OFFSET_TRANSITION_GUARD := 2
  const OFFSET_USER_FIRST := 3

  /******* Data model *******/

  datatype Action = Lookup | Unreachable

  datatype Rule = Rule(family: Family, priority: int, action: Action, table: int, mark: bv32, mask: bv32)

  /** The kernel's selector test; mask 0 selects every packet. */
  predicate MarkMatches(mark: bv32, mask: bv32, packet: bv32) {
    packet & mask == mark & mask
  }

  datatype RouteType = Unicast | UnsupportedType

  datatype Nexthop = Nexthop(link: int, gateway: Addr, flags: bv32)

  datatype Route = Route(family: Family, table: int, dst: Prefix, gateway: Addr, source: Addr,
                         link: int, priority: int, scope: int, flags: bv32, kind: RouteType,
                         multipath: seq<Nexthop>)

  datatype SourceRoute = SourceRoute(destination: Prefix, source: Addr)

  datatype Mode = Exclude | Include | OtherMode(code: int)
  datatype Strictness = Strict | NonStrict | OtherStrictness(code: int)

  datatype FamilySet = FamilySet(ipv4: bool, ipv6: bool) {
    predicate Has(f: Family) {
      if f.V4? then ipv4 else ipv6
    }

    function ToSeq(): seq<Family> {
      (if ipv4 then [V4] else []) + (if ipv6 then [V6] else [])
    }
  }

  datatype Config = Config(tunIndex: int, sourceRoutes: seq<SourceRoute>, vpnTable: int, safeTable: int,
                           base: int, span: int, appMark: bv32, appMask: bv32, userMark: bv32, userMask: bv32,
                           mode: Mode, strictness: Strictness, families: FamilySet, tunnelFamilies: FamilySet)

  datatype DesiredState = DesiredState(config: Config, rules: seq<Rule>, vpnRoutes: seq<Route>, safeRoutes: seq<Route>)

  datatype Result<+T> = Ok(value: T) | Err

  /******* Validation *******/

  predicate MarksOverlap(aMark: bv32, aMask: bv32, bMark: bv32, bMask: bv32) {
    var common := aMask & bMask;
    aMark & common == bMark & common
  }

  lemma OverlapWitness(aMark: bv32, aMask: bv32, bMark: bv32, bMask: bv32, m: bv32)
    requires MarksOverlap(aMark, aMask, bMark, bMask) && m == (aMark & aMask) | (bMark & bMask)
    ensures MarkMatches(aMark, aMask, m) && MarkMatches(bMark, bMask, m)
  {
  }

  lemma CommonMarkOverlaps(aMark: bv32, aMask: bv32, bMark: bv32, bMask: bv32, m: bv32)
    requires MarkMatches(aMark, aMask, m) && MarkMatches(bMark, bMask, m)
    ensures MarksOverlap(aMark, aMask, bMark, bMask)
  {
    calc {
      aMark & (aMask & bMask);
      (aMark & aMask) & bMask;
      (m & aMask) & bMask;
      (m & bMask) & aMask;
      (bMark & bMask) & aMask;
      bMark & (aMask & bMask);
    }
  }

  /** The overlap test is exact: it holds when and only when one packet mark satisfies both selectors. */
  lemma MarksOverlapExact(aMark: bv32, aMask: bv32, bMark: bv32, bMask: bv32)
    ensures MarksOverlap(aMark, aMask, bMark, bMask)
            <==> exists m: bv32 :: MarkMatches(aMark, aMask, m) && MarkMatches(bMark, bMask, m)
  {
    if MarksOverlap(aMark, aMask, bMark, bMask) {
      OverlapWitness(aMark, aMask, bMark, bMask, (aMark & aMask) | (bMark & bMask));
    } else {
      forall m: bv32 ensures !(MarkMatches(aMark, aMask, m) && MarkMatches(bMark, bMask, m)) {
        if MarkMatches(aMark, aMask, m) && MarkMatches(bMark, bMask, m) {
          CommonMarkOverlaps(aMark, aMask, bMark, bMask, m);
        }
      }
    }
  }

  predicate ReservedTable(t: int) {
    t <= 0 || t == RT_TABLE_MAIN || t == RT_TABLE_LOCAL || t == RT_TABLE_DEFAULT
  }

  predicate ValidPreferredSource(a: Addr) {
    && a.IsValid() && !a.Is4In6() && !a.IsUnspecified() && !a.IsMulticast() && !a.IsLoopback()
    && a.zone == "" && (a.IsGlobalUnicast() || a.IsLinkLocalUnicast())
  }

  /** Which addresses a packet may be given as source: any but the unspecified, loopback,
      multicast, broadcast, IPv4-mapped and zoned ones. */
  lemma PreferredSourceExactly(a: Addr)
    ensures ValidPreferredSource(a) <==>
              && a.IsValid() && a.zone == ""
              && if a.family.V4? then
                   && a.bits != Zeros(32) && a.bits != Ones(32)
                   && a.bits[..8] != Octet(127) && a.bits[..4] != [true, true, true, false]
                 else
                   && a.bits != Zeros(128) && a.bits != Zeros(127) + [true]
                   && a.bits[..8] != Ones(8) && a.bits[..96] != Zeros(80) + Ones(16)
  {
    HeadBits();
    hide Octet;
    assert a.IsValid() && a.family.V4? && a.bits == Ones(32) ==> a.bits[..16][1];
  }

  /** The families the TUN carries; an empty set means every policy family. */
  function TunnelFamilies(c: Config): FamilySet {
    if !c.tunnelFamilies.ipv4 && !c.tunnelFamilies.ipv6 then c.families else c.tunnelFamilies
  }

  function FamilyOf(a: Addr): Family {
    if a.Is4() then V4 else V6
  }

  predicate SourceRouteOk(c: Config, r: SourceRoute) {
    && r.destination.IsValid() && !r.destination.addr.Is4In6()
    && r.destination == r.destination.Masked()
    && ValidPreferredSource(r.source)
    && r.destination.addr.Is4() == r.source.Is4()
    && TunnelFamilies(c).Has(FamilyOf(r.source))
  }

  predicate ScalarsOk(c: Config) {
    && 0 < c.tunIndex
    && !ReservedTable(c.vpnTable) && !ReservedTable(c.safeTable) && c.vpnTable != c.safeTable
    && 0 < c.base && DEFAULT_PRIORITY_SPAN <= c.span && c.base + c.span <= FIRST_KERNEL_BUILTIN_PRIORITY
    && c.appMask != 0 && c.userMask != 0
    && !MarksOverlap(c.appMark, c.appMask, c.userMark, c.userMask)
    && !c.mode.OtherMode? && !c.strictness.OtherStrictness?
    && (c.families.ipv4 || c.families.ipv6)
    && (c.tunnelFamilies.ipv4 ==> c.families.ipv4) && (c.tunnelFamilies.ipv6 ==> c.families.ipv6)
  }

  predicate DistinctDestinations(rs: seq<SourceRoute>) {
    forall i, j | 0 <= i < j < |rs| :: rs[i].destination != rs[j].destination
  }

  ghost predicate Valid(c: Config) {
    ScalarsOk(c) && SourceRoutesOk(c, c.sourceRoutes)
  }

  ghost predicate SourceRoutesOk(c: Config, rs: seq<SourceRoute>) {
    (forall r | r in rs :: SourceRouteOk(c, r)) && DistinctDestinations(rs)
  }

  /** The conditions on one source route, in plain terms: a network without host bits, and a
      source of its family, which the TUN carries. */
  lemma SourceRouteExactly(c: Config, r: SourceRoute)
    ensures SourceRouteOk(c, r) <==>
              && r.destination.IsValid() && ValidPreferredSource(r.source)
              && (forall i | r.destination.len <= i < |r.destination.addr.bits| :: !r.destination.addr.bits[i])
              && (r.destination.addr.family.V6? ==> r.destination.addr.bits[..96] != Zeros(80) + Ones(16))
              && r.destination.addr.family == r.source.family
              && (c.tunnelFamilies.Has(r.source.family)
                  || (c.tunnelFamilies == FamilySet(false, false) && c.families.Has(r.source.family)))
  {
    PreferredSourceExactly(r.source);
    hide ValidPreferredSource, Octet;
    var p := r.destination;
    if p.IsValid() {
      assert p == p.Masked() <==> forall i | p.len <= i < |p.addr.bits| :: !p.addr.bits[i] by {
        if p == p.Masked() {
          forall i | p.len <= i < |p.addr.bits| ensures !p.addr.bits[i] {
            assert p.addr.bits[i] == p.Masked().addr.bits[i];
          }
        }
        if forall i | p.len <= i < |p.addr.bits| :: !p.addr.bits[i] {
          assert p.addr.bits == p.Masked().addr.bits;
        }
      }
    }
  }

  /** The conditions on numbers, marks and choices, in plain terms. */
  lemma ScalarsExactly(c: Config)
    ensures ScalarsOk(c) <==>
              && 1 <= c.tunIndex
              && 1 <= c.vpnTable && c.vpnTable !in {253, 254, 255}
              && 1 <= c.safeTable && c.safeTable !in {253, 254, 255} && c.vpnTable != c.safeTable
              && 1 <= c.base && 32 <= c.span && c.base + c.span <= 32766
              && c.appMask != 0 && c.userMask != 0
              && !(exists m: bv32 :: MarkMatches(c.appMark, c.appMask, m) && MarkMatches(c.userMark, c.userMask, m))
              && (c.mode == Exclude || c.mode == Include) && (c.strictness == Strict || c.strictness == NonStrict)
              && (c.families.ipv4 || c.families.ipv6)
              && (c.tunnelFamilies.ipv4 ==> c.families.ipv4) && (c.tunnelFamilies.ipv6 ==> c.families.ipv6)
  {
    hide MarksOverlap, MarkMatches;
    MarksOverlapExact(c.appMark, c.appMask, c.userMark, c.userMask);
  }

  /** One pass in source order; `seen` remembers the destinations already met. */
  method ValidateSourceRoutes(c: Config) returns (ok: bool)
    ensures ok <==> SourceRoutesOk(c, c.sourceRoutes)
  {
    hide SourceRouteOk;
    var rs := c.sourceRoutes;
    var seen: map<Prefix, Addr> := map[];
    for i := 0 to |rs|
      invariant SourceRoutesOk(c, rs[..i])
      invariant forall j | 0 <= j < i :: rs[j].destination in seen
      invariant forall p | p in seen :: exists j :: 0 <= j < i && rs[j].destination == p
    {
      var r := rs[i];
      if !SourceRouteOk(c, r) {
        assert r in rs;
        return false;
      }
      if r.destination in seen {
        return false;
      }
      assert rs[..i + 1] == rs[..i] + [r];
      seen := seen[r.destination := r.source];
    }
    assert rs[..|rs|] == rs;
    return true;
  }

  method Validate(c: Config) returns (ok: bool)
    ensures ok <==> Valid(c)
  {
    if !ScalarsOk(c) {
      return false;
    }
    ok := ValidateSourceRoutes(c);
  }

  /******* Rules *******/

  function AppMain(c: Config, f: Family): Rule {
    Rule(f, c.base + OFFSET_APP_MAIN, Lookup, RT_TABLE_MAIN, c.appMark, c.appMask)
  }

  function AppUnreachable(c: Config, f: Family): Rule {
    Rule(f, c.base + OFFSET_APP_UNREACHABLE, Unreachable, 0, c.appMark, c.appMask)
  }

  function TransitionGuard(c: Config, f: Family): (g: Rule) {
    Rule(f, c.base + OFFSET_TRANSITION_GUARD, Unreachable, 0, 0, 0)
  }

  function ModeRules(c: Config, f: Family): seq<Rule> {
    var all := (a: Action, t: int) => Rule(f, 0, a, t, 0, 0);
    var user := (a: Action, t: int) => Rule(f, 0, a, t, c.userMark, c.userMask);
    if !TunnelFamilies(c).Has(f) then
      [all(Unreachable, 0)]
    else
      match (c.mode, c.strictness)
      case (Exclude, Strict) =>
        [user(Unreachable, 0), all(Lookup, c.vpnTable), all(Unreachable, 0)]
      case (Exclude, NonStrict) =>
        [user(Lookup, RT_TABLE_MAIN), user(Unreachable, 0), all(Lookup, c.safeTable),
         all(Lookup, c.vpnTable), all(Unreachable, 0)]
      case (Include, Strict) =>
        [user(Lookup, c.vpnTable), user(Unreachable, 0), all(Unreachable, 0)]
      case (Include, NonStrict) =>
        [all(Lookup, c.safeTable), user(Lookup, c.vpnTable), user(Unreachable, 0),
         all(Lookup, RT_TABLE_MAIN)]
      case _ => []
  }

  function Numbered(rules: seq<Rule>, first: int): seq<Rule> {
    seq(|rules|, i requires 0 <= i < |rules| => rules[i].(priority := first + i))
  }

  function CompileRules(c: Config, f: Family): seq<Rule> {
    [AppMain(c, f), AppUnreachable(c, f)] + Numbered(ModeRules(c, f), c.base + OFFSET_USER_FIRST)
  }

  lemma ModeRulesShape(c: Config, f: Family)
    ensures |ModeRules(c, f)| <= 5
    ensures forall i | 0 <= i < |ModeRules(c, f)| ::
              && ModeRules(c, f)[i].family == f
              && (ModeRules(c, f)[i].action.Lookup? ==>
                  ModeRules(c, f)[i].table in {RT_TABLE_MAIN, c.vpnTable, c.safeTable})
              && (ModeRules(c, f)[i].action.Unreachable? ==> ModeRules(c, f)[i].table == 0)
  {
  }

  /** What the reconciler relies on: one rule per priority, in increasing order, inside
      the block, never on the guard's slot, and only the two application-bypass rules
      below it. */
  lemma CompiledRuleShape(c: Config, f: Family)
    ensures forall i, j | 0 <= i < j < |CompileRules(c, f)| ::
              CompileRules(c, f)[i].priority < CompileRules(c, f)[j].priority
    ensures forall r | r in CompileRules(c, f) ::
              && r.family == f
              && c.base <= r.priority < c.base + 8
              && r.priority != c.base + OFFSET_TRANSITION_GUARD
              && (r.priority < c.base + OFFSET_USER_FIRST ==> r == AppMain(c, f) || r == AppUnreachable(c, f))
              && (r.action.Lookup? ==> r.table in {RT_TABLE_MAIN, c.vpnTable, c.safeTable})
              && (r.action.Unreachable? ==> r.table == 0)
  {
    ModeRulesShape(c, f);
    hide ModeRules;
    var rs, tail := CompileRules(c, f), Numbered(ModeRules(c, f), c.base + OFFSET_USER_FIRST);
    assert rs[0] == AppMain(c, f) && rs[1] == AppUnreachable(c, f);
    assert forall i | 2 <= i < |rs| :: rs[i] == tail[i - 2] && rs[i].priority == c.base + i + 1;
  }

  /******* Safe routes *******/

  datatype SafeClass = RouteIgnored | RouteSafe | RouteUnsafe

  function SafeDestinationPrefixes(f: Family): seq<Prefix> {
    if f.V4? then
      [Pfx(V4, Octet(10)),
       Pfx(V4, Octet(172) + [false, false, false, true]),
       Pfx(V4, Octet(192) + Octet(168)),
       Pfx(V4, Octet(169) + Octet(254))]
    else
      [Pfx(V6, [true, true, true, true, true, true, false]),
       Pfx(V6, Octet(0xfe) + [true, false])]
  }

  predicate PrivateOrLocalPrefix(p: Prefix) {
    p.IsValid() && exists q | q in SafeDestinationPrefixes(p.addr.family) :: q.len <= p.len && q.Contains(p.addr)
  }

  function ClassifySafeRoute(r: Route, tun: int): SafeClass
    decreases |r.multipath|
  {
    if !r.kind.Unicast? || !r.dst.IsValid() then RouteIgnored
    else if r.dst.len == 0 || r.link == tun then RouteUnsafe
    else if |r.multipath| > 0 then
      if forall h | h in r.multipath ::
          ClassifySafeRoute(r.(link := h.link, gateway := h.gateway, multipath := []), tun) == RouteSafe
      then RouteSafe else RouteUnsafe
    else if r.gateway.IsValid() && !PrivateOrLocalPrefix(r.dst) then RouteUnsafe
    else RouteSafe
  }

  /** The links and gateways a route can send a packet to. */
  function Nexthops(r: Route): seq<Nexthop> {
    if |r.multipath| > 0 then r.multipath else [Nexthop(r.link, r.gateway, r.flags)]
  }

  /** The private and link-local ranges of section 3 of RFC 1918, section 2.1 of RFC 3927,
      section 3.1 of RFC 4193 and section 2.5.6 of RFC 4291. */
  predicate InPrivateRange(a: Addr) {
    && a.IsValid()
    && if a.family.V4? then
         || a.bits[..8] == Octet(10)
         || a.bits[..12] == Octet(172) + [false, false, false, true]
         || a.bits[..16] == Octet(192) + Octet(168)
         || a.bits[..16] == Octet(169) + Octet(254)
       else
         || a.bits[..7] == [true, true, true, true, true, true, false]
         || a.bits[..10] == [true, true, true, true, true, true, true, false, true, false]
  }

  lemma ContainsHead(f: Family, head: seq<bool>, a: Addr)
    requires |head| <= Width(f) && Pfx(f, head).Contains(a)
    ensures a.IsValid() && a.family == f && |head| <= |a.bits| && a.bits[..|head|] == head
  {
    assert Pfx(f, head).addr.bits[..|head|] == head;
  }

  lemma SafeDestination4(q: Prefix, a: Addr)
    requires q in SafeDestinationPrefixes(V4) && q.Contains(a)
    ensures InPrivateRange(a)
  {
    hide Octet, Pfx, Prefix.Contains;
    var i :| 0 <= i < 4 && SafeDestinationPrefixes(V4)[i] == q;
    if i == 0 { ContainsHead(V4, Octet(10), a); }
    else if i == 1 { ContainsHead(V4, Octet(172) + [false, false, false, true], a); }
    else if i == 2 { ContainsHead(V4, Octet(192) + Octet(168), a); }
    else { ContainsHead(V4, Octet(169) + Octet(254), a); }
  }

  lemma SafeDestination6(q: Prefix, a: Addr)
    requires q in SafeDestinationPrefixes(V6) && q.Contains(a)
    ensures InPrivateRange(a)
  {
    hide Pfx, Prefix.Contains;
    assert Octet(0xfe) + [true, false] == [true, true, true, true, true, true, true, false, true, false];
    var i :| 0 <= i < 2 && SafeDestinationPrefixes(V6)[i] == q;
    if i == 0 { ContainsHead(V6, [true, true, true, true, true, true, false], a); }
    else { ContainsHead(V6, Octet(0xfe) + [true, false], a); }
  }

  lemma SafeDestinationIsPrivate(q: Prefix, f: Family, a: Addr)
    requires q in SafeDestinationPrefixes(f) && q.Contains(a)
    ensures InPrivateRange(a)
  {
    hide SafeDestinationPrefixes, Prefix.Contains, InPrivateRange;
    if f.V4? {
      SafeDestination4(q, a);
    } else {
      SafeDestination6(q, a);
    }
  }

  lemma PrivatePrefixIsPrivate(p: Prefix, a: Addr)
    requires PrivateOrLocalPrefix(p) && p.Contains(a)
    ensures InPrivateRange(a)
  {
    var q :| q in SafeDestinationPrefixes(p.addr.family) && q.len <= p.len && q.Contains(p.addr);
    ContainsNested(q, p, a);
    SafeDestinationIsPrivate(q, p.addr.family, a);
  }

  /******* The list of ranges is complete *******/

  /** An address that starts like `head` up to `n`, differs there, and goes on with zeros. */
  function TurnedOff(head: seq<bool>, n: nat): seq<bool>
    requires n < |head| <= 32
  {
    head[..n] + [!head[n]] + Zeros(31 - n)
  }

  /** It does not start like another head that parts from the first one at `e` and has a
      one behind that. */
  lemma TurnedOffMisses(head: seq<bool>, n: nat, other: seq<bool>, e: nat, one: nat)
    requires n < |head| <= 32 && e < |head| && e < one < |other| <= 32
    requires head[..e] == other[..e] && head[e] != other[e] && other[one]
    ensures TurnedOff(head, n)[..|other|] != other
  {
    var a, i := TurnedOff(head, n), if e < n then e else if e == n then one else n;
    if n < e {
      assert other[n] == other[..e][n] && head[n] == head[..e][n];
    }
    assert a[i] != other[i] && a[..|other|][i] == a[i];
  }

  lemma TurnedOffDiffers(head: seq<bool>, n: nat)
    requires n < |head| <= 32
    ensures TurnedOff(head, n)[..|head|] != head
  {
    assert TurnedOff(head, n)[..|head|][n] == !head[n];
  }

  const HEAD_10 := [false, false, false, false, true, false, true, false]
  const HEAD_172 := [true, false, true, false, true, true, false, false, false, false, false, true]
  const HEAD_192 := [true, true, false, false, false, false, false, false]
                    + [true, false, true, false, true, false, false, false]
  const HEAD_169 := [true, false, true, false, true, false, false, true]
                    + [true, true, true, true, true, true, true, false]

  lemma HeadBits()
    ensures Octet(10) == HEAD_10 && Octet(172) + [false, false, false, true] == HEAD_172
    ensures Octet(192) + Octet(168) == HEAD_192 && Octet(169) + Octet(254) == HEAD_169
  {
    assert Octet(172) == [true, false, true, false, true, true, false, false];
    HighBits();
    hide Octet;
  }

  lemma HighBits()
    ensures Octet(192) == [true, true, false, false, false, false, false, false]
    ensures Octet(168) == [true, false, true, false, true, false, false, false]
    ensures Octet(169) == [true, false, true, false, true, false, false, true]
    ensures Octet(254) == [true, true, true, true, true, true, true, false]
  {
  }

  lemma NotPrivateBits(head: seq<bool>, n: nat)
    requires head in [HEAD_10, HEAD_172, HEAD_192, HEAD_169] && n < |head|
    ensures var a := TurnedOff(head, n);
            a[..8] != HEAD_10 && a[..12] != HEAD_172 && a[..16] != HEAD_192 && a[..16] != HEAD_169
  {
    hide TurnedOff;
    TurnedOffDiffers(head, n);
    if head == HEAD_10 {
      TurnedOffMisses(head, n, HEAD_172, 0, 2);
      TurnedOffMisses(head, n, HEAD_192, 0, 1);
      TurnedOffMisses(head, n, HEAD_169, 0, 2);
    } else if head == HEAD_172 {
      TurnedOffMisses(head, n, HEAD_10, 0, 4);
      TurnedOffMisses(head, n, HEAD_192, 1, 8);
      TurnedOffMisses(head, n, HEAD_169, 5, 7);
    } else if head == HEAD_192 {
      TurnedOffMisses(head, n, HEAD_10, 0, 4);
      TurnedOffMisses(head, n, HEAD_172, 1, 2);
      TurnedOffMisses(head, n, HEAD_169, 1, 2);
    } else {
      TurnedOffMisses(head, n, HEAD_10, 0, 4);
      TurnedOffMisses(head, n, HEAD_172, 5, 11);
      TurnedOffMisses(head, n, HEAD_192, 1, 8);
    }
  }

  /** Next to every private IPv4 range there is an address in none of them. */
  lemma NotPrivate4(head: seq<bool>, n: nat, zone: string)
    requires head in [HEAD_10, HEAD_172, HEAD_192, HEAD_169] && n < |head|
    ensures !InPrivateRange(Addr(V4, TurnedOff(head, n), zone))
  {
    hide Octet, TurnedOff;
    HeadBits();
    NotPrivateBits(head, n);
  }

  /** A prefix that starts in a range but is shorter reaches beyond all ranges. */
  lemma TooShort4(p: Prefix, head: seq<bool>)
    requires p.IsValid() && p.addr.family.V4? && head in [HEAD_10, HEAD_172, HEAD_192, HEAD_169]
    requires p.addr.bits[..|head|] == head && p.len < |head|
    ensures exists a :: p.Contains(a) && !InPrivateRange(a)
  {
    var a := Addr(V4, TurnedOff(head, p.len), "");
    NotPrivate4(head, p.len, "");
    hide InPrivateRange, Octet;
    assert a.bits[..p.len] == head[..p.len] == p.addr.bits[..|head|][..p.len] == p.addr.bits[..p.len];
    assert p.Contains(a);
  }

  lemma TooShort6(p: Prefix, head: seq<bool>)
    requires head in [[true, true, true, true, true, true, false],
                      [true, true, true, true, true, true, true, false, true, false]]
    requires p.IsValid() && p.addr.family.V6? && p.addr.bits[..|head|] == head && p.len < |head|
    ensures exists a :: p.Contains(a) && !InPrivateRange(a)
  {
    var a := Addr(V6, p.addr.bits[..p.len] + Ones(128 - p.len), "");
    assert a.bits[..p.len] == p.addr.bits[..p.len];
    assert p.len <= 6 || p.addr.bits[6] == p.addr.bits[..|head|][6];
    assert a.bits[6] && a.bits[9];
    assert a.bits[..7][6] && a.bits[..10][9];
    assert p.Contains(a);
  }

  /** A prefix lies in a listed range if and only if all its addresses are private. */
  lemma PrivateExactly(p: Prefix)
    ensures PrivateOrLocalPrefix(p) <==> p.IsValid() && forall a | p.Contains(a) :: InPrivateRange(a)
  {
    if PrivateOrLocalPrefix(p) {
      forall a | p.Contains(a) ensures InPrivateRange(a) {
        PrivatePrefixIsPrivate(p, a);
      }
    } else if p.IsValid() && forall a | p.Contains(a) :: InPrivateRange(a) {
      assert p.Contains(p.addr);
      if p.addr.family.V4? {
        AllPrivate4(p);
      } else {
        AllPrivate6(p);
      }
    }
  }

  lemma HeadContains(f: Family, head: seq<bool>, p: Prefix)
    requires |head| <= Width(f) && p.IsValid() && p.addr.family == f && p.addr.bits[..|head|] == head
    ensures Pfx(f, head).Contains(p.addr) && Pfx(f, head).len == |head|
  {
    assert Pfx(f, head).addr.bits[..|head|] == head;
  }

  lemma AllPrivate4(p: Prefix)
    requires p.IsValid() && p.addr.family.V4? && InPrivateRange(p.addr)
    requires forall a | p.Contains(a) :: InPrivateRange(a)
    ensures PrivateOrLocalPrefix(p)
  {
    HeadBits();
    var head := if p.addr.bits[..8] == HEAD_10 then HEAD_10 else if p.addr.bits[..12] == HEAD_172 then HEAD_172
    else if p.addr.bits[..16] == HEAD_192 then HEAD_192 else HEAD_169;
    assert p.addr.bits[..|head|] == head;
    assert Pfx(V4, head) in SafeDestinationPrefixes(V4);
    hide Octet, InPrivateRange, SafeDestinationPrefixes, Pfx;
    if p.len < |head| {
      TooShort4(p, head);
    } else {
      HeadContains(V4, head, p);
    }
  }

  lemma AllPrivate6(p: Prefix)
    requires p.IsValid() && p.addr.family.V6? && InPrivateRange(p.addr)
    requires forall a | p.Contains(a) :: InPrivateRange(a)
    ensures PrivateOrLocalPrefix(p)
  {
    var short := [true, true, true, true, true, true, false];
    var long := [true, true, true, true, true, true, true, false, true, false];
    assert Octet(0xfe) + [true, false] == long;
    var head := if p.addr.bits[..7] == short then short else long;
    assert Pfx(V6, head) in SafeDestinationPrefixes(V6);
    hide Octet, InPrivateRange, SafeDestinationPrefixes, Pfx;
    if p.len < |head| {
      TooShort6(p, head);
    } else {
      HeadContains(V6, head, p);
    }
  }

  lemma ClassifiedExactly(r: Route, tun: int)
    ensures ClassifySafeRoute(r, tun) == RouteSafe <==>
              && r.kind.Unicast? && r.dst.IsValid() && 0 < r.dst.len && r.link != tun
              && forall h | h in Nexthops(r) :: h.link != tun && (h.gateway.IsValid() ==> PrivateOrLocalPrefix(r.dst))
  {
    hide PrivateOrLocalPrefix;
    if |r.multipath| == 0 {
      SafeHop(r, tun);
      assert Nexthops(r)[0] == Nexthop(r.link, r.gateway, r.flags);
    } else {
      forall h | h in r.multipath
        ensures r.kind.Unicast? && r.dst.IsValid() && r.dst.len != 0 ==>
                  (ClassifySafeRoute(r.(link := h.link, gateway := h.gateway, multipath := []), tun) == RouteSafe
                   <==> h.link != tun && (h.gateway.IsValid() ==> PrivateOrLocalPrefix(r.dst)))
      {
        SafeHop(r.(link := h.link, gateway := h.gateway, multipath := []), tun);
      }
    }
  }

  lemma SafeHop(r: Route, tun: int)
    requires |r.multipath| == 0
    ensures ClassifySafeRoute(r, tun) == RouteSafe <==>
              && r.kind.Unicast? && r.dst.IsValid() && r.dst.len != 0 && r.link != tun
              && (r.gateway.IsValid() ==> PrivateOrLocalPrefix(r.dst))
  {
    hide PrivateOrLocalPrefix;
  }

  /** What a safe route is: unicast, to a proper prefix, with its own link and every nexthop
      off the TUN, and with gateways only if every destination is private. */
  ghost predicate LeadsToPeers(r: Route, tun: int) {
    && r.kind.Unicast? && r.dst.IsValid() && 0 < r.dst.len && r.link != tun
    && (forall h | h in Nexthops(r) :: h.link != tun)
    && ((exists h | h in Nexthops(r) :: h.gateway.IsValid()) ==> forall a | r.dst.Contains(a) :: InPrivateRange(a))
  }

  lemma SafeRouteExactly(r: Route, tun: int)
    ensures ClassifySafeRoute(r, tun) == RouteSafe <==> LeadsToPeers(r, tun)
  {
    hide InPrivateRange, PrivateOrLocalPrefix;
    PrivateExactly(r.dst);
    ClassifiedExactly(r, tun);
  }

  /** No leak through a route classified safe: every nexthop avoids the TUN, the
      prefix is not a default route, and a gateway is only used for private ranges. */
  lemma SafeRouteDoesNotLeak(r: Route, tun: int, a: Addr)
    requires ClassifySafeRoute(r, tun) == RouteSafe && r.dst.Contains(a)
    ensures forall h | h in Nexthops(r) :: h.link != tun
    ensures r.link != tun && 0 < r.dst.len
    ensures (exists h :: h in Nexthops(r) && h.gateway.IsValid()) ==> InPrivateRange(a)
  {
    forall h | h in Nexthops(r)
      ensures h.link != tun && (h.gateway.IsValid() ==> InPrivateRange(a))
    {
      var hop := r.(link := h.link, gateway := h.gateway, multipath := []);
      assert ClassifySafeRoute(hop, tun) == RouteSafe;
      if h.gateway.IsValid() {
        PrivatePrefixIsPrivate(r.dst, a);
      }
    }
  }

  /** RTNH_F_ONLINK and RTNH_F_PERVASIVE; transient kernel flags are not replayed. */
  function DesiredFlags(flags: bv32): bv32 {
    flags & 6
  }

  function SafeTableRoute(r: Route, table: int): Route {
    r.(table := table, flags := DesiredFlags(r.flags),
       multipath := seq(|r.multipath|, i requires 0 <= i < |r.multipath| =>
         r.multipath[i].(flags := DesiredFlags(r.multipath[i].flags))))
  }

  /** The flags that survive, each on its own: on-link and pervasive. */
  ghost predicate FlagsCopied(flags: bv32, copy: bv32) {
    copy & 4 == flags & 4 && copy & 2 == flags & 2 && copy | 6 == 6
  }

  /** What the copy in the safe table has of a main-table route. */
  ghost predicate CopiedTo(r: Route, table: int, s: Route) {
    && s.table == table && s.family == r.family && s.dst == r.dst && s.priority == r.priority && s.kind == r.kind
    && s.link == r.link && s.gateway == r.gateway && s.source == r.source && s.scope == r.scope
    && FlagsCopied(r.flags, s.flags) && |s.multipath| == |r.multipath|
    && forall i | 0 <= i < |r.multipath| ::
         && s.multipath[i].link == r.multipath[i].link && s.multipath[i].gateway == r.multipath[i].gateway
         && FlagsCopied(r.multipath[i].flags, s.multipath[i].flags)
  }

  lemma DesiredFlagsExactly(flags: bv32, copy: bv32)
    ensures copy == DesiredFlags(flags) <==> FlagsCopied(flags, copy)
  {
  }

  /** The copy is determined by what it keeps. */
  lemma SafeCopyExactly(r: Route, table: int, s: Route)
    ensures s == SafeTableRoute(r, table) <==> CopiedTo(r, table, s)
  {
    DesiredFlagsExactly(r.flags, s.flags);
    forall i | 0 <= i < |r.multipath| && i < |s.multipath|
      ensures s.multipath[i].flags == DesiredFlags(r.multipath[i].flags)
         <==> FlagsCopied(r.multipath[i].flags, s.multipath[i].flags)
    {
      DesiredFlagsExactly(r.multipath[i].flags, s.multipath[i].flags);
    }
    hide DesiredFlags, FlagsCopied;
    if CopiedTo(r, table, s) {
      assert s.multipath == SafeTableRoute(r, table).multipath;
    }
  }

  predicate DependsOnGateway(r: Route) {
    r.gateway.IsValid() || exists h | h in r.multipath :: h.gateway.IsValid()
  }

  /******* Orders used by the compiler *******/

  function BitKey(bits: seq<bool>): seq<int> {
    seq(|bits|, i requires 0 <= i < |bits| => if bits[i] then 1 else 0)
  }

  function AddrKey(a: Addr): seq<int> {
    if a.NoAddr? then [0] else [Width(a.family)] + BitKey(a.bits)
  }

  function SafeKey(r: Route): seq<int> {
    [if DependsOnGateway(r) then 1 else 0, Width(r.family)] + AddrKey(r.dst.addr) + [r.dst.len]
  }

  predicate SafeLe(a: Route, b: Route) {
    LexLe(SafeKey(a), SafeKey(b))
  }

  function SourceKey(r: SourceRoute): seq<int> {
    AddrKey(r.destination.addr) + [r.destination.len] + AddrKey(r.source)
  }

  predicate SourceLe(a: SourceRoute, b: SourceRoute) {
    LexLe(SourceKey(a), SourceKey(b))
  }

  lemma SafeLePreorder()
    ensures TotalPreorder(SafeLe)
  {
    forall x: Route, y: Route ensures SafeLe(x, y) || SafeLe(y, x) {
      LexTotal(SafeKey(x), SafeKey(y));
    }
    forall x: Route, y: Route, z: Route | SafeLe(x, y) && SafeLe(y, z) ensures SafeLe(x, z) {
      LexTransitive(SafeKey(x), SafeKey(y), SafeKey(z));
    }
  }

  lemma SourceLePreorder()
    ensures TotalPreorder(SourceLe)
  {
    forall x: SourceRoute, y: SourceRoute ensures SourceLe(x, y) || SourceLe(y, x) {
      LexTotal(SourceKey(x), SourceKey(y));
    }
    forall x: SourceRoute, y: SourceRoute, z: SourceRoute | SourceLe(x, y) && SourceLe(y, z)
      ensures SourceLe(x, z)
    {
      LexTransitive(SourceKey(x), SourceKey(y), SourceKey(z));
    }
  }

  /******* Desired state *******/

  predicate IsSpecific(r: SourceRoute, f: Family) {
    FamilyOf(r.destination.addr) == f && r.destination != DefaultPrefix(f)
  }

  /** The source of the last default source route of the family, if any. */
  function DefaultSource(rs: seq<SourceRoute>, f: Family): Addr {
    if rs == [] then NoAddr
    else
      var last := rs[|rs| - 1];
      if last.destination == DefaultPrefix(f) then last.source
      else DefaultSource(rs[..|rs| - 1], f)
  }

  function TunRoute(c: Config, f: Family, dst: Prefix, source: Addr): Route {
    Route(f, c.vpnTable, dst, NoAddr, source, c.tunIndex, 0, 0, 0, Unicast, [])
  }

  function SpecificRoutes(c: Config, f: Family, rs: seq<SourceRoute>): seq<Route> {
    seq(|rs|, i requires 0 <= i < |rs| => TunRoute(c, f, rs[i].destination, rs[i].source))
  }

  function VpnRoutes(c: Config, f: Family): seq<Route> {
    if !TunnelFamilies(c).Has(f) then []
    else
      [TunRoute(c, f, DefaultPrefix(f), DefaultSource(c.sourceRoutes, f))]
      + SpecificRoutes(c, f, Sort(SourceLe, Filter(r => IsSpecific(r, f), c.sourceRoutes)))
  }

  predicate Replayed(c: Config, r: Route) {
    c.families.Has(r.family) && ClassifySafeRoute(r, c.tunIndex) == RouteSafe
  }

  function Replay(c: Config, rs: seq<Route>): seq<Route> {
    if rs == [] then []
    else Replay(c, rs[..|rs| - 1])
         + if Replayed(c, rs[|rs| - 1]) then [SafeTableRoute(rs[|rs| - 1], c.safeTable)] else []
  }

  function SafeRoutes(c: Config, main: seq<Route>): seq<Route> {
    Sort(SafeLe, Replay(c, main))
  }

  function OverFamilies<T>(fs: seq<Family>, g: Family -> seq<T>): seq<T> {
    if fs == [] then [] else OverFamilies(fs[..|fs| - 1], g) + g(fs[|fs| - 1])
  }

  function Desired(c: Config, main: seq<Route>): DesiredState {
    DesiredState(c,
                 OverFamilies(c.families.ToSeq(), f => CompileRules(c, f)),
                 OverFamilies(c.families.ToSeq(), f => VpnRoutes(c, f)),
                 SafeRoutes(c, main))
  }

  /** The rules and VPN routes, family by family. */
  method CompileFamilies(c: Config) returns (rules: seq<Rule>, vpn: seq<Route>)
    requires Valid(c)
    ensures rules == OverFamilies(c.families.ToSeq(), f => CompileRules(c, f))
    ensures vpn == OverFamilies(c.families.ToSeq(), f => VpnRoutes(c, f))
  {
    hide Valid, CompileRules, SpecificRoutes, Sort, Filter, TunRoute, DefaultSource;
    var families := c.families.ToSeq();
    rules, vpn := [], [];
    for i := 0 to |families|
      invariant rules == OverFamilies(families[..i], f => CompileRules(c, f))
      invariant vpn == OverFamilies(families[..i], f => VpnRoutes(c, f))
    {
      var f := families[i];
      assert families[..i + 1][..i] == families[..i];
      rules := rules + CompileRules(c, f);
      var routes := CompileVpnRoutes(c, f);
      vpn := vpn + routes;
    }
    assert families[..|families|] == families;
  }

  method CompileVpnRoutes(c: Config, f: Family) returns (routes: seq<Route>)
    requires Valid(c)
    ensures routes == VpnRoutes(c, f)
  {
    hide Valid;
    if !TunnelFamilies(c).Has(f) {
      return [];
    }
    var defaultSource, specific := CompileSources(c, f);
    routes := [TunRoute(c, f, DefaultPrefix(f), defaultSource)] + SpecificRoutes(c, f, Sort(SourceLe, specific));
  }

  /** One pass over the snapshot. */
  method CompileSafeRoutes(c: Config, main: seq<Route>) returns (safe: seq<Route>)
    ensures safe == SafeRoutes(c, main)
  {
    safe := [];
    for i := 0 to |main|
      invariant safe == Replay(c, main[..i])
    {
      assert main[..i + 1][..i] == main[..i];
      if Replayed(c, main[i]) {
        safe := safe + [SafeTableRoute(main[i], c.safeTable)];
      }
    }
    assert main[..|main|] == main;
    safe := Sort(SafeLe, safe);
  }

  method CompileDesiredState(c: Config, main: seq<Route>) returns (r: Result<DesiredState>)
    ensures r.Ok? <==> Valid(c)
    ensures r.Ok? ==> r.value == Desired(c, main)
  {
    hide Valid, CompileRules, VpnRoutes, SafeRoutes, OverFamilies;
    var ok := Validate(c);
    if !ok {
      return Err;
    }
    var rules, vpn := CompileFamilies(c);
    var safe := CompileSafeRoutes(c, main);
    return Ok(DesiredState(c, rules, vpn, safe));
  }

  method CompileSources(c: Config, f: Family) returns (defaultSource: Addr, specific: seq<SourceRoute>)
    requires Valid(c)
    ensures defaultSource == DefaultSource(c.sourceRoutes, f)
    ensures specific == Filter(r => IsSpecific(r, f), c.sourceRoutes)
  {
    defaultSource := NoAddr;
    specific := [];
    var rs := c.sourceRoutes;
    ghost var p := (r: SourceRoute) => IsSpecific(r, f);
    for i := 0 to |rs|
      invariant defaultSource == DefaultSource(rs[..i], f)
      invariant specific == Filter(p, rs[..i])
    {
      assert rs[..i + 1] == rs[..i] + [rs[i]];
      FilterSnoc(p, rs[..i], rs[i]);
      var r := rs[i];
      assert SourceRouteOk(c, r);
      assert r.destination == DefaultPrefix(f) ==> FamilyOf(r.destination.addr) == f;
      if FamilyOf(r.destination.addr) == f {
        if r.destination == DefaultPrefix(f) {
          defaultSource := r.source;
        } else {
          specific := specific + [r];
        }
      }
    }
    assert rs[..|rs|] == rs;
  }
}
