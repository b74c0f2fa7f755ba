/** Reconciling the addresses of a TUN link: a plan of single changes whose every
    prefix keeps the wanted addresses that already work. */
module Addresses {
  import opened Netip

  /******* The link *******/

  /** The flags that matter for IPv6: duplicate detection switched off, and
      tentative or failed, which makes the address unusable. */
  datatype Flags = Flags(nodad: bool, unusable: bool)

  type Link = map<Prefix, Flags>

  datatype Entry = Entry(prefix: Prefix, flags: Flags)

  datatype Change = Replace(prefix: Prefix) | Delete(prefix: Prefix)

  /** What listing an entry yields: an IPv4-mapped IPv6 address is read back as four
      bytes under a 128-bit mask and is not recognised. */
  function View(e: Entry): Option<Prefix> {
    if e.prefix.IsValid() && !e.prefix.addr.Is4In6() then Some(e.prefix) else None
  }

  /** The kernel holds an IPv6 address under at most one prefix length. */
  ghost predicate LinkOk(l: Link) {
    && (forall p | p in l :: p.IsValid())
    && (forall p, q | p in l && q in l && p.addr.Is6() && p.addr == q.addr :: p == q)
  }

  ghost predicate Lists(current: seq<Entry>, l: Link) {
    && (forall i | 0 <= i < |current| :: current[i].prefix in l && l[current[i].prefix] == current[i].flags)
    && (forall p | p in l :: exists i :: 0 <= i < |current| && current[i].prefix == p)
    && (forall i, j | 0 <= i < j < |current| :: current[i].prefix != current[j].prefix)
  }

  /** Replacing an existing address sets NODAD and leaves an unusable one unusable; a
      new IPv6 address with NODAD is usable at once. */
  function Exec(l: Link, c: Change): Link {
    match c
    case Replace(p) =>
      l[p := Flags(p.addr.Is6() || (p in l && l[p].nodad), p in l && l[p].unusable)]
    case Delete(p) => l - {p}
  }

  predicate Allowed(l: Link, c: Change) {
    match c
    case Replace(p) => p.IsValid() && (p.addr.Is6() ==> forall q | q in l && q.addr == p.addr :: q == p)
    case Delete(p) => p in l
  }

  function After(l: Link, cs: seq<Change>): Link {
    if cs == [] then l else Exec(After(l, cs[..|cs| - 1]), cs[|cs| - 1])
  }

  /** Every change of the plan is one the kernel accepts when its turn comes. */
  ghost predicate Runs(l: Link, cs: seq<Change>) {
    cs != [] ==> Runs(l, cs[..|cs| - 1]) && Allowed(After(l, cs[..|cs| - 1]), cs[|cs| - 1])
  }

  /******* What a plan promises *******/

  predicate Fine(l: Link, p: Prefix) {
    p in l && (p.addr.Is6() ==> !l[p].unusable)
  }

  predicate Good(l: Link, p: Prefix) {
    Fine(l, p) && (p.addr.Is6() ==> l[p].nodad)
  }

  /** Exactly the wanted prefixes, every IPv6 one usable and without duplicate detection. */
  ghost predicate Settled(l: Link, d: seq<Prefix>) {
    (forall p :: p in l <==> p in d) && forall p | p in d :: Good(l, p)
  }

  /** Wanted addresses that worked before still work, unless the listing does not show them. */
  ghost predicate Keeps(l: Link, d: seq<Prefix>, k: Link) {
    forall p | p in d && Fine(l, p) && !p.addr.Is4In6() :: Fine(k, p)
  }

  ghost predicate KeepsAlways(l: Link, d: seq<Prefix>, cs: seq<Change>) {
    forall i | 0 <= i <= |cs| :: Keeps(l, d, After(l, cs[..i]))
  }

  /** The prefix is there but unusable, or its address is there under another length. */
  ghost predicate NeedsDelete(l: Link, p: Prefix) {
    || (p in l && !Fine(l, p))
    || (p !in l && exists q :: q in l && q.addr == p.addr)
  }

  /** Whatever can be added without a deletion is added before any deletion. */
  ghost predicate AdditionsFirst(l: Link, cs: seq<Change>) {
    forall i, j | 0 <= i < j < |cs| && cs[i].Delete? && cs[j].Replace? :: NeedsDelete(l, cs[j].prefix)
  }

  ghost predicate OnlyWanted(l: Link, d: seq<Prefix>, k: Link) {
    forall p | p in k :: p in l || p in d
  }

  ghost predicate Sound(l: Link, d: seq<Prefix>, cs: seq<Change>) {
    && Runs(l, cs) && KeepsAlways(l, d, cs) && AdditionsFirst(l, cs)
    && OnlyWanted(l, d, After(l, cs))
  }

  predicate Plain(d: seq<Prefix>) {
    forall p | p in d :: !p.addr.Is4In6()
  }

  ghost predicate Normal(d: seq<Prefix>) {
    && (forall p | p in d :: p.IsValid())
    && (forall i, j | 0 <= i < j < |d| :: d[i].addr != d[j].addr)
  }

  lemma AfterSnoc(l: Link, cs: seq<Change>, c: Change)
    ensures After(l, cs + [c]) == Exec(After(l, cs), c)
    ensures Runs(l, cs + [c]) <==> Runs(l, cs) && Allowed(After(l, cs), c)
  {
    assert (cs + [c])[..|cs|] == cs;
  }

  lemma KeepsSnoc(l: Link, d: seq<Prefix>, cs: seq<Change>, c: Change)
    requires KeepsAlways(l, d, cs) && Keeps(l, d, After(l, cs + [c]))
    ensures KeepsAlways(l, d, cs + [c])
  {
    forall i | 0 <= i <= |cs| + 1 ensures Keeps(l, d, After(l, (cs + [c])[..i])) {
      if i <= |cs| {
        assert (cs + [c])[..i] == cs[..i];
      } else {
        assert (cs + [c])[..i] == cs + [c];
      }
    }
  }

  lemma KeepsNow(l: Link, d: seq<Prefix>, cs: seq<Change>)
    requires KeepsAlways(l, d, cs)
    ensures Keeps(l, d, After(l, cs))
  {
    assert cs[..|cs|] == cs;
  }

  lemma SoundStart(l: Link, d: seq<Prefix>)
    ensures Sound(l, d, [])
  {
  }

  lemma ReplaceStep(l: Link, d: seq<Prefix>, cs: seq<Change>, p: Prefix)
    requires Sound(l, d, cs) && p in d && Allowed(After(l, cs), Replace(p))
    requires (forall i | 0 <= i < |cs| :: cs[i].Replace?) || NeedsDelete(l, p)
    ensures Sound(l, d, cs + [Replace(p)])
    ensures forall q :: q in After(l, cs + [Replace(p)]) <==> q in After(l, cs) || q == p
    ensures forall q | q in After(l, cs) && q != p :: After(l, cs + [Replace(p)])[q] == After(l, cs)[q]
    ensures p !in After(l, cs) || Fine(After(l, cs), p) ==> Good(After(l, cs + [Replace(p)]), p)
  {
    AfterSnoc(l, cs, Replace(p));
    KeepsNow(l, d, cs);
    KeepsSnoc(l, d, cs, Replace(p));
  }

  lemma DeleteStep(l: Link, d: seq<Prefix>, cs: seq<Change>, q: Prefix)
    requires Sound(l, d, cs) && q in After(l, cs) && !(q in d && Fine(l, q))
    ensures Sound(l, d, cs + [Delete(q)])
    ensures After(l, cs + [Delete(q)]) == After(l, cs) - {q}
  {
    AfterSnoc(l, cs, Delete(q));
    KeepsNow(l, d, cs);
    KeepsSnoc(l, d, cs, Delete(q));
  }

  /******* Normalising *******/

  ghost predicate Consistent(ps: seq<Prefix>) {
    && (forall p | p in ps :: p.IsValid())
    && (forall p, q | p in ps && q in ps && p.addr == q.addr :: p.len == q.len)
  }

  /** Duplicates go; one address under two lengths is an error. */
  method NormalizePrefixes(prefixes: seq<Prefix>) returns (r: Option<seq<Prefix>>)
    ensures r.Some? <==> Consistent(prefixes)
    ensures r.Some? ==> Normal(r.value) && forall p :: p in r.value <==> p in prefixes
  {
    var seen: set<Prefix> := {};
    var bits: map<Addr, int> := map[];
    var normalized: seq<Prefix> := [];
    for i := 0 to |prefixes|
      invariant Consistent(prefixes[..i]) && Normal(normalized)
      invariant forall p :: p in normalized <==> p in prefixes[..i]
      invariant forall p :: p in seen <==> p in prefixes[..i]
      invariant forall a :: a in bits <==> exists p :: p in prefixes[..i] && p.addr == a
      invariant forall p | p in prefixes[..i] :: p.addr in bits && bits[p.addr] == p.len
    {
      var p := prefixes[i];
      assert p in prefixes;
      if !p.IsValid() {
        return None;
      }
      assert prefixes[..i + 1] == prefixes[..i] + [p];
      if p.addr in bits && bits[p.addr] != p.len {
        var q :| q in prefixes[..i] && q.addr == p.addr;
        assert q in prefixes && q.len == bits[p.addr];
        return None;
      }
      if p !in seen {
        forall j | 0 <= j < |normalized| ensures normalized[j].addr != p.addr {
          assert normalized[j] in normalized;
          assert normalized[j] != p;
        }
        seen := seen + {p};
        normalized := normalized + [p];
      }
      bits := bits[p.addr := p.len];
    }
    assert prefixes[..|prefixes|] == prefixes;
    return Some(normalized);
  }

  /******* Indexing the current addresses *******/

  type ByIP = map<Addr, seq<int>>

  function Conflicts(byIP: ByIP, a: Addr): seq<int> {
    if a in byIP then byIP[a] else []
  }

  predicate HoldsAddr(current: seq<Entry>, n: nat, i: int, a: Addr)
    requires n <= |current|
  {
    0 <= i < n && View(current[i]).Some? && current[i].prefix.addr == a
  }

  ghost predicate PrefixesIndexed(current: seq<Entry>, n: nat, byPrefix: map<Prefix, int>)
    requires n <= |current|
  {
    && (forall p | p in byPrefix :: 0 <= byPrefix[p] < n && View(current[byPrefix[p]]) == Some(p))
    && (forall i | 0 <= i < n && View(current[i]).Some? :: current[i].prefix in byPrefix)
  }

  ghost predicate AddrsIndexed(current: seq<Entry>, n: nat, byIP: ByIP)
    requires n <= |current|
  {
    && (forall a, j | 0 <= j < |Conflicts(byIP, a)| :: HoldsAddr(current, n, Conflicts(byIP, a)[j], a))
    && (forall i | 0 <= i < n && View(current[i]).Some? :: i in Conflicts(byIP, current[i].prefix.addr))
  }

  ghost predicate IndexOk(current: seq<Entry>, n: nat, byPrefix: map<Prefix, int>, byIP: ByIP)
    requires n <= |current|
  {
    PrefixesIndexed(current, n, byPrefix) && AddrsIndexed(current, n, byIP)
  }

  lemma IndexStart(current: seq<Entry>)
    ensures IndexOk(current, 0, map[], map[])
  {
  }

  lemma IndexParts(current: seq<Entry>, n: nat, byPrefix: map<Prefix, int>, byIP: ByIP)
    requires n <= |current|
    ensures IndexOk(current, n, byPrefix, byIP) <==>
              PrefixesIndexed(current, n, byPrefix) && AddrsIndexed(current, n, byIP)
  {
  }

  function Indexed(byPrefix: map<Prefix, int>, p: Prefix, i: int): map<Prefix, int> {
    if p in byPrefix then byPrefix else byPrefix[p := i]
  }

  lemma IndexSkip(current: seq<Entry>, n: nat, byPrefix: map<Prefix, int>, byIP: ByIP)
    requires n < |current| && IndexOk(current, n, byPrefix, byIP) && View(current[n]).None?
    ensures IndexOk(current, n + 1, byPrefix, byIP)
  {
    forall a, j | 0 <= j < |Conflicts(byIP, a)| ensures HoldsAddr(current, n + 1, Conflicts(byIP, a)[j], a) {
      assert HoldsAddr(current, n, Conflicts(byIP, a)[j], a);
    }
  }

  lemma PrefixStep(current: seq<Entry>, n: nat, byPrefix: map<Prefix, int>, p: Prefix)
    requires n < |current| && PrefixesIndexed(current, n, byPrefix) && View(current[n]) == Some(p)
    ensures PrefixesIndexed(current, n + 1, Indexed(byPrefix, p, n))
  {
    ViewIs(current[n]);
    hide View;
  }

  lemma AddrStep(current: seq<Entry>, n: nat, byIP: ByIP, p: Prefix)
    requires n < |current| && AddrsIndexed(current, n, byIP) && View(current[n]) == Some(p)
    ensures AddrsIndexed(current, n + 1, byIP[p.addr := Conflicts(byIP, p.addr) + [n]])
  {
    ViewIs(current[n]);
    hide View;
    var next := byIP[p.addr := Conflicts(byIP, p.addr) + [n]];
    forall a, j | 0 <= j < |Conflicts(next, a)| ensures HoldsAddr(current, n + 1, Conflicts(next, a)[j], a) {
      if a == p.addr && j == |Conflicts(byIP, a)| {
      } else {
        assert Conflicts(next, a)[j] == Conflicts(byIP, a)[j];
        assert HoldsAddr(current, n, Conflicts(byIP, a)[j], a);
      }
    }
    forall i | 0 <= i < n + 1 && View(current[i]).Some? ensures i in Conflicts(next, current[i].prefix.addr) {
      if i < n {
        assert i in Conflicts(byIP, current[i].prefix.addr);
      }
    }
  }

  lemma ViewIs(e: Entry)
    ensures View(e).Some? ==> View(e).value == e.prefix && !e.prefix.addr.Is4In6()
  {
  }

  method IndexCurrent(current: seq<Entry>, desired: set<Prefix>)
    returns (byPrefix: map<Prefix, int>, byIP: ByIP, retained: array<bool>)
    ensures IndexOk(current, |current|, byPrefix, byIP)
    ensures fresh(retained) && retained.Length == |current|
    ensures forall i | 0 <= i < |current| :: retained[i] <==> View(current[i]).Some? && current[i].prefix in desired
  {
    hide View, PrefixesIndexed, AddrsIndexed, IndexOk, Indexed, Conflicts;
    byPrefix, byIP := map[], map[];
    IndexStart(current);
    retained := new bool[|current|](_ => false);
    for i := 0 to |current|
      invariant IndexOk(current, i, byPrefix, byIP)
      invariant forall j | 0 <= j < i :: retained[j] <==> View(current[j]).Some? && current[j].prefix in desired
      invariant forall j | i <= j < |current| :: !retained[j]
    {
      IndexParts(current, i, byPrefix, byIP);
      var view := View(current[i]);
      if view.None? {
        IndexSkip(current, i, byPrefix, byIP);
        continue;
      }
      var p := view.value;
      ViewIs(current[i]);
      PrefixStep(current, i, byPrefix, p);
      AddrStep(current, i, byIP, p);
      IndexParts(current, i + 1, Indexed(byPrefix, p, i), byIP[p.addr := Conflicts(byIP, p.addr) + [i]]);
      byPrefix := Indexed(byPrefix, p, i);
      byIP := byIP[p.addr := Conflicts(byIP, p.addr) + [i]];
      if p in desired {
        retained[i] := true;
      }
    }
  }

  /** The part of the link that the listing shows. */
  ghost function Seen(l: Link): Link {
    map p | p in l && !p.addr.Is4In6() :: l[p]
  }

  ghost predicate Shows(current: seq<Entry>, l: Link) {
    && (forall i | 0 <= i < |current| && View(current[i]).Some? ::
          current[i].prefix in l && l[current[i].prefix] == current[i].flags)
    && (forall p | p in l :: exists i :: 0 <= i < |current| && View(current[i]) == Some(p))
    && (forall i, j | 0 <= i < j < |current| :: current[i].prefix != current[j].prefix)
  }

  lemma ShowsSeen(current: seq<Entry>, l: Link)
    requires LinkOk(l) && Lists(current, l)
    ensures LinkOk(Seen(l)) && Shows(current, Seen(l))
  {
    forall p | p in Seen(l) ensures exists i :: 0 <= i < |current| && View(current[i]) == Some(p) {
      var i :| 0 <= i < |current| && current[i].prefix == p;
      assert View(current[i]) == Some(p);
    }
  }

  /** What the planner knows: the entries it can see, the wanted prefixes and the index. */
  ghost predicate Known(current: seq<Entry>, l: Link, d: seq<Prefix>, byPrefix: map<Prefix, int>, byIP: ByIP) {
    LinkOk(l) && Shows(current, l) && Normal(d) && IndexOk(current, |current|, byPrefix, byIP)
  }

  lemma SeenIff(current: seq<Entry>, l: Link, d: seq<Prefix>, byPrefix: map<Prefix, int>, byIP: ByIP, p: Prefix)
    requires Known(current, l, d, byPrefix, byIP)
    ensures p in byPrefix <==> p in l
    ensures p in byPrefix ==>
              && 0 <= byPrefix[p] < |current| && View(current[byPrefix[p]]) == Some(p)
              && current[byPrefix[p]] == Entry(p, l[p])
  {
    if p in l {
      var i :| 0 <= i < |current| && View(current[i]) == Some(p);
      ViewIs(current[i]);
    }
  }

  lemma ClashIff(current: seq<Entry>, l: Link, d: seq<Prefix>, byPrefix: map<Prefix, int>, byIP: ByIP, p: Prefix)
    requires Known(current, l, d, byPrefix, byIP)
    ensures Conflicts(byIP, p.addr) == [] <==> forall q | q in l :: q.addr != p.addr
    ensures forall i | 0 <= i < |current| && View(current[i]).Some? && current[i].prefix.addr == p.addr ::
              i in Conflicts(byIP, p.addr)
  {
    hide View;
    forall q | q in l && q.addr == p.addr ensures Conflicts(byIP, p.addr) != [] {
      var i :| 0 <= i < |current| && View(current[i]) == Some(q);
      ViewIs(current[i]);
    }
    if Conflicts(byIP, p.addr) != [] {
      var i := Conflicts(byIP, p.addr)[0];
      assert HoldsAddr(current, |current|, i, p.addr);
      assert current[i].prefix in l && current[i].prefix.addr == p.addr;
    }
  }

  /** Two wanted prefixes never share an address. */
  lemma WantedApart(d: seq<Prefix>, p: Prefix, q: Prefix)
    requires Normal(d) && p in d && q in d && p.addr == q.addr
    ensures p == q
  {
    var i :| 0 <= i < |d| && d[i] == p;
    var j :| 0 <= j < |d| && d[j] == q;
  }

  /** Among the link's own addresses and the wanted ones, nothing stands in the way. */
  lemma ReplaceAllowed(l: Link, d: seq<Prefix>, k: Link, p: Prefix)
    requires Normal(d) && p in d && OnlyWanted(l, d, k)
    requires forall q | q in k && q in l && q.addr == p.addr :: q == p
    ensures Allowed(k, Replace(p))
  {
    forall q | q in k && q.addr == p.addr ensures q == p {
      if q in d {
        WantedApart(d, p, q);
      }
    }
  }

  /******* The five phases *******/

  /** Of the entries that are seen, those marked as deleted are gone unless wanted again. */
  ghost predicate Untouched(current: seq<Entry>, deleted: seq<bool>, d: seq<Prefix>, k: Link)
    requires |deleted| == |current|
  {
    forall i | 0 <= i < |current| ::
      if View(current[i]).None? then !deleted[i]
      else current[i].prefix in k <==> !deleted[i] || current[i].prefix in d
  }

  /** A change the first four phases may plan. */
  ghost predicate Proper(d: seq<Prefix>, c: Change) {
    match c
    case Replace(p) => p in d
    case Delete(q) => !q.addr.Is4In6()
  }

  ghost predicate NoDeletes(cs: seq<Change>) {
    forall i | 0 <= i < |cs| :: cs[i].Replace?
  }

  /** Which wanted prefixes the first four phases take care of. */
  datatype Phase = Refresh | Add | Renew | Displace

  ghost predicate Due(l: Link, p: Prefix, phase: Phase) {
    match phase
    case Refresh => Fine(l, p)
    case Add => p !in l && !NeedsDelete(l, p)
    case Renew => p in l && !Fine(l, p)
    case Displace => p !in l && NeedsDelete(l, p)
  }

  lemma SomePhase(l: Link, p: Prefix)
    ensures Due(l, p, Refresh) || Due(l, p, Add) || Due(l, p, Renew) || Due(l, p, Displace)
  {
  }

  ghost predicate Done(l: Link, d: seq<Prefix>, n: nat, phase: Phase, k: Link)
    requires n <= |d|
  {
    forall j | 0 <= j < n && Due(l, d[j], phase) :: Good(k, d[j])
  }

  /** Where the first phase stands after `n` wanted prefixes. */
  ghost predicate RefreshedTo(l: Link, d: seq<Prefix>, n: nat, cs: seq<Change>)
    requires n <= |d|
  {
    && Sound(l, d, cs) && NoDeletes(cs)
    && Done(l, d, n, Refresh, After(l, cs))
    && (forall p :: p in l <==> p in After(l, cs))
    && (forall j | n <= j < |d| && d[j] in l :: After(l, cs)[d[j]] == l[d[j]])
    && (Settled(l, d) ==> cs == [])
  }

  lemma RefreshSkip(l: Link, d: seq<Prefix>, n: nat, cs: seq<Change>)
    requires n < |d| && RefreshedTo(l, d, n, cs)
    requires Fine(l, d[n]) && d[n].addr.Is6() ==> l[d[n]].nodad
    ensures RefreshedTo(l, d, n + 1, cs)
  {
    hide Sound, After, Settled;
  }

  lemma RefreshOne(l: Link, d: seq<Prefix>, n: nat, cs: seq<Change>)
    requires LinkOk(l) && Normal(d) && n < |d| && RefreshedTo(l, d, n, cs)
    requires Fine(l, d[n]) && d[n].addr.Is6() && !l[d[n]].nodad
    ensures RefreshedTo(l, d, n + 1, cs + [Replace(d[n])])
  {
    var p := d[n];
    assert p in d;
    RefreshAllowed(l, d, cs, p);
    ReplaceStep(l, d, cs, p);
    assert !Settled(l, d);
    hide Sound, After, Settled;
    var k := After(l, cs + [Replace(p)]);
    assert Good(k, p);
    forall j | 0 <= j < n + 1 && Due(l, d[j], Refresh) ensures Good(k, d[j]) {
      if d[j] != p { assert Good(After(l, cs), d[j]); }
    }
    forall j | n + 1 <= j < |d| ensures d[j] != p {
      assert d[j].addr != d[n].addr;
    }
  }

  lemma RefreshAllowed(l: Link, d: seq<Prefix>, cs: seq<Change>, p: Prefix)
    requires LinkOk(l) && Normal(d) && Sound(l, d, cs) && p in d && p in l && p.addr.Is6()
    ensures Allowed(After(l, cs), Replace(p))
  {
    ReplaceAllowed(l, d, After(l, cs), p);
  }

  lemma KnownParts(current: seq<Entry>, l: Link, d: seq<Prefix>, byPrefix: map<Prefix, int>, byIP: ByIP)
    requires Known(current, l, d, byPrefix, byIP)
    ensures LinkOk(l) && Normal(d) && forall p | p in byPrefix :: 0 <= byPrefix[p] < |current|
  {
  }

  /** IPv6 addresses that work but still run duplicate detection get NODAD in place. In the
      phases `l` is the part of the link that the listing shows. */
  method RefreshPhase(current: seq<Entry>, desired: seq<Prefix>, byPrefix: map<Prefix, int>, ghost byIP: ByIP,
                      ghost l: Link) returns (changes: seq<Change>)
    requires Known(current, l, desired, byPrefix, byIP)
    ensures RefreshedTo(l, desired, |desired|, changes)
    ensures forall c | c in changes :: Proper(desired, c)
  {
    hide RefreshedTo, Known, LinkOk, Normal, Addr.Is4In6, Addr.Is6, View;
    changes := [];
    RefreshStart(l, desired);
    for n := 0 to |desired|
      invariant RefreshedTo(l, desired, n, changes)
      invariant forall c | c in changes :: Proper(desired, c)
    {
      var p := desired[n];
      KnownParts(current, l, desired, byPrefix, byIP);
      SeenIff(current, l, desired, byPrefix, byIP, p);
      if p !in byPrefix || !p.addr.Is6() {
        RefreshSkip(l, desired, n, changes);
        continue;
      }
      var flags := current[byPrefix[p]].flags;
      if flags.unusable || flags.nodad {
        RefreshSkip(l, desired, n, changes);
        continue;
      }
      RefreshOne(l, desired, n, changes);
      changes := changes + [Replace(p)];
    }
  }

  lemma RefreshStart(l: Link, d: seq<Prefix>)
    ensures RefreshedTo(l, d, 0, [])
  {
    SoundStart(l, d);
  }

  /** How many wanted prefixes each of the first four phases has passed. */
  datatype Counts = Counts(refresh: nat, add: nat, renew: nat, displace: nat) {
    function Of(phase: Phase): nat {
      match phase
      case Refresh => refresh
      case Add => add
      case Renew => renew
      case Displace => displace
    }

    function Next(phase: Phase): Counts {
      match phase
      case Refresh => this.(refresh := refresh + 1)
      case Add => this.(add := add + 1)
      case Renew => this.(renew := renew + 1)
      case Displace => this.(displace := displace + 1)
    }
  }

  /** One wanted prefix: good when its phase has passed it, and absent while it waits to be added. */
  ghost predicate Placed(l: Link, p: Prefix, j: nat, c: Counts, k: Link) {
    forall phase: Phase | Due(l, p, phase) ::
      && (j < c.Of(phase) ==> Good(k, p))
      && (c.Of(phase) <= j && (phase.Add? || phase.Displace?) ==> p !in k)
  }

  ghost predicate At(l: Link, d: seq<Prefix>, c: Counts, k: Link) {
    forall j | 0 <= j < |d| :: Placed(l, d[j], j, c, k)
  }

  lemma AtSkip(l: Link, d: seq<Prefix>, c: Counts, phase: Phase, k: Link)
    requires At(l, d, c, k) && c.Of(phase) < |d| && !Due(l, d[c.Of(phase)], phase)
    ensures At(l, d, c.Next(phase), k)
  {
    hide Due;
    forall j | 0 <= j < |d| ensures Placed(l, d[j], j, c.Next(phase), k) {
      assert Placed(l, d[j], j, c, k);
    }
  }

  lemma DueOnce(l: Link, p: Prefix, a: Phase, b: Phase)
    requires Due(l, p, a) && Due(l, p, b)
    ensures a == b
  {
  }

  /** Its turn came and it is good now; every other prefix is as before. */
  lemma AtPlace(l: Link, d: seq<Prefix>, c: Counts, phase: Phase, k: Link, next: Link)
    requires Normal(d) && At(l, d, c, k) && c.Of(phase) < |d| && Due(l, d[c.Of(phase)], phase)
    requires Good(next, d[c.Of(phase)])
    requires forall q | q != d[c.Of(phase)] :: (q in next <==> q in k) && (q in k ==> next[q] == k[q])
    ensures At(l, d, c.Next(phase), next)
  {
    hide Due, Good, Placed;
    var n := c.Of(phase);
    forall j | 0 <= j < |d| ensures Placed(l, d[j], j, c.Next(phase), next) {
      assert Placed(l, d[j], j, c, k);
      if j == n {
        PlacedNow(l, d[n], n, c, phase, next);
      } else {
        assert d[j].addr != d[n].addr;
        PlacedSame(l, d[j], j, c, phase, k, next);
      }
    }
  }

  lemma PlacedNow(l: Link, p: Prefix, n: nat, c: Counts, phase: Phase, next: Link)
    requires n == c.Of(phase) && Due(l, p, phase) && Good(next, p)
    ensures Placed(l, p, n, c.Next(phase), next)
  {
    hide Due, Good;
    forall other: Phase | Due(l, p, other) ensures other == phase {
      DueOnce(l, p, other, phase);
    }
  }

  lemma PlacedSame(l: Link, p: Prefix, j: nat, c: Counts, phase: Phase, k: Link, next: Link)
    requires Placed(l, p, j, c, k) && j != c.Of(phase)
    requires (p in next <==> p in k) && (p in k ==> next[p] == k[p])
    ensures Placed(l, p, j, c.Next(phase), next)
  {
    hide Due;
  }

  lemma AtDelete(l: Link, d: seq<Prefix>, c: Counts, k: Link, q: Prefix)
    requires At(l, d, c, k) && q !in d
    ensures At(l, d, c, k - {q})
  {
    hide Due;
    forall j | 0 <= j < |d| ensures Placed(l, d[j], j, c, k - {q}) {
      assert Placed(l, d[j], j, c, k);
      assert d[j] in d;
    }
  }

  ghost predicate Stage(l: Link, d: seq<Prefix>, c: Counts, cs: seq<Change>) {
    Sound(l, d, cs) && At(l, d, c, After(l, cs)) && (Settled(l, d) ==> cs == [])
  }

  lemma RefreshDone(l: Link, d: seq<Prefix>, cs: seq<Change>)
    requires RefreshedTo(l, d, |d|, cs)
    ensures Stage(l, d, Counts(|d|, 0, 0, 0), cs) && NoDeletes(cs) && forall p | p in l :: p in After(l, cs)
  {
    hide Sound, After, Settled;
  }

  lemma StageSkip(l: Link, d: seq<Prefix>, c: Counts, phase: Phase, cs: seq<Change>)
    requires Stage(l, d, c, cs) && c.Of(phase) < |d| && !Due(l, d[c.Of(phase)], phase)
    ensures Stage(l, d, c.Next(phase), cs)
  {
    hide Sound, After, Settled, Due, Placed;
    AtSkip(l, d, c, phase, After(l, cs));
  }

  lemma NotSettled(l: Link, d: seq<Prefix>, p: Prefix)
    requires p in d && (p !in l || !Fine(l, p))
    ensures !Settled(l, d)
  {
  }

  /******* Phase two: what clashes with nothing *******/

  lemma AddOne(l: Link, d: seq<Prefix>, c: Counts, cs: seq<Change>)
    requires Normal(d) && Stage(l, d, c, cs) && NoDeletes(cs) && c.add < |d| && Due(l, d[c.add], Add)
    ensures Stage(l, d, c.Next(Add), cs + [Replace(d[c.add])]) && NoDeletes(cs + [Replace(d[c.add])])
    ensures forall p | p in After(l, cs) :: p in After(l, cs + [Replace(d[c.add])])
  {
    var p := d[c.add];
    assert p in d && Placed(l, p, c.add, c, After(l, cs));
    assert p !in After(l, cs);
    NotSettled(l, d, p);
    ReplaceAllowed(l, d, After(l, cs), p);
    ReplaceStep(l, d, cs, p);
    hide Sound, After, Settled, Due, Placed, Allowed;
    AtPlace(l, d, c, Add, After(l, cs), After(l, cs + [Replace(p)]));
  }

  method AddPhase(current: seq<Entry>, desired: seq<Prefix>, byPrefix: map<Prefix, int>, byIP: ByIP, ghost l: Link,
                  before: seq<Change>) returns (changes: seq<Change>)
    requires Known(current, l, desired, byPrefix, byIP)
    requires Stage(l, desired, Counts(|desired|, 0, 0, 0), before) && NoDeletes(before)
    requires forall p | p in l :: p in After(l, before)
    requires forall c | c in before :: Proper(desired, c)
    ensures Stage(l, desired, Counts(|desired|, |desired|, 0, 0), changes)
    ensures forall p | p in l :: p in After(l, changes)
    ensures forall c | c in changes :: Proper(desired, c)
    ensures forall p | p in desired && p.addr.Is4In6() :: Replace(p) in changes
  {
    hide Stage, Known, LinkOk, Normal, After, NoDeletes, Addr.Is4In6, View;
    changes := before;
    for n := 0 to |desired|
      invariant Stage(l, desired, Counts(|desired|, n, 0, 0), changes) && NoDeletes(changes)
      invariant forall p | p in l :: p in After(l, changes)
      invariant forall c | c in changes :: Proper(desired, c)
      invariant forall j | 0 <= j < n && desired[j].addr.Is4In6() :: Replace(desired[j]) in changes
    {
      var p := desired[n];
      ghost var c := Counts(|desired|, n, 0, 0);
      KnownParts(current, l, desired, byPrefix, byIP);
      SeenIff(current, l, desired, byPrefix, byIP, p);
      ClashIff(current, l, desired, byPrefix, byIP, p);
      if p.addr.Is4In6() {
        MappedUnseen(current, l, desired, byPrefix, byIP, p);
      }
      if p in byPrefix {
        StageSkip(l, desired, c, Add, changes);
        continue;
      }
      if Conflicts(byIP, p.addr) != [] {
        StageSkip(l, desired, c, Add, changes);
        continue;
      }
      AddOne(l, desired, c, changes);
      changes := changes + [Replace(p)];
    }
  }

  lemma MappedUnseen(current: seq<Entry>, l: Link, d: seq<Prefix>, byPrefix: map<Prefix, int>, byIP: ByIP, p: Prefix)
    requires Known(current, l, d, byPrefix, byIP) && p.addr.Is4In6()
    ensures forall q | q in l :: q.addr != p.addr
  {
    forall q | q in l ensures q.addr != p.addr {
      var i :| 0 <= i < |current| && View(current[i]) == Some(q);
    }
  }

  /******* Phase three: unusable IPv6 addresses are removed and added again *******/

  lemma RenewDelete(l: Link, d: seq<Prefix>, c: Counts, cs: seq<Change>)
    requires Normal(d) && Stage(l, d, c, cs) && c.renew < |d| && Due(l, d[c.renew], Renew) && d[c.renew] in After(l, cs)
    ensures Sound(l, d, cs + [Delete(d[c.renew])]) && After(l, cs + [Delete(d[c.renew])]) == After(l, cs) - {d[c.renew]}
  {
    assert d[c.renew] in d;
    DeleteStep(l, d, cs, d[c.renew]);
  }

  lemma RenewOne(l: Link, d: seq<Prefix>, c: Counts, cs: seq<Change>)
    requires LinkOk(l) && Normal(d) && Stage(l, d, c, cs) && c.renew < |d| && Due(l, d[c.renew], Renew)
    requires d[c.renew] in After(l, cs)
    ensures Stage(l, d, c.Next(Renew), cs + [Delete(d[c.renew])] + [Replace(d[c.renew])])
    ensures forall q :: q in After(l, cs + [Delete(d[c.renew])] + [Replace(d[c.renew])]) <==> q in After(l, cs)
  {
    var p, mid := d[c.renew], cs + [Delete(d[c.renew])];
    assert p in d;
    RenewDelete(l, d, c, cs);
    NotSettled(l, d, p);
    ReplaceAllowed(l, d, After(l, mid), p);
    ReplaceStep(l, d, mid, p);
    hide Sound, After, Settled, Due, Placed, Allowed;
    AtPlace(l, d, c, Renew, After(l, cs), After(l, mid + [Replace(p)]));
  }

  lemma RenewStep(current: seq<Entry>, deleted: seq<bool>, i: nat, l: Link, d: seq<Prefix>, c: Counts, cs: seq<Change>)
    requires LinkOk(l) && Normal(d) && Stage(l, d, c, cs) && c.renew < |d| && Due(l, d[c.renew], Renew)
    requires |deleted| == |current| && i < |current| && View(current[i]) == Some(d[c.renew])
    requires current[i].prefix == d[c.renew] && d[c.renew] in After(l, cs)
    requires Untouched(current, deleted, d, After(l, cs))
    ensures Stage(l, d, c.Next(Renew), cs + [Delete(d[c.renew])] + [Replace(d[c.renew])])
    ensures Untouched(current, deleted[i := true], d, After(l, cs + [Delete(d[c.renew])] + [Replace(d[c.renew])]))
  {
    hide Stage, LinkOk, Normal, After, Due, View;
    RenewOne(l, d, c, cs);
  }

  method RenewPhase(current: seq<Entry>, desired: seq<Prefix>, byPrefix: map<Prefix, int>, ghost byIP: ByIP,
                    ghost l: Link, before: seq<Change>, deleted: array<bool>) returns (changes: seq<Change>)
    requires Known(current, l, desired, byPrefix, byIP) && deleted.Length == |current|
    requires Stage(l, desired, Counts(|desired|, |desired|, 0, 0), before)
    requires Untouched(current, deleted[..], desired, After(l, before))
    requires forall c | c in before :: Proper(desired, c)
    modifies deleted
    ensures Stage(l, desired, Counts(|desired|, |desired|, |desired|, 0), changes)
    ensures Untouched(current, deleted[..], desired, After(l, changes))
    ensures (forall c | c in changes :: Proper(desired, c)) && forall c | c in before :: c in changes
  {
    hide Stage, Known, LinkOk, Normal, After, Untouched, View, Addr.Is4In6;
    changes := before;
    for n := 0 to |desired|
      invariant Stage(l, desired, Counts(|desired|, |desired|, n, 0), changes)
      invariant Untouched(current, deleted[..], desired, After(l, changes))
      invariant (forall c | c in changes :: Proper(desired, c)) && forall c | c in before :: c in changes
    {
      var p := desired[n];
      ghost var c := Counts(|desired|, |desired|, n, 0);
      KnownParts(current, l, desired, byPrefix, byIP);
      SeenIff(current, l, desired, byPrefix, byIP, p);
      if p !in byPrefix || !p.addr.Is6() || !current[byPrefix[p]].flags.unusable {
        StageSkip(l, desired, c, Renew, changes);
        continue;
      }
      var i := byPrefix[p];
      ghost var was := deleted[..];
      ViewIs(current[i]);
      UntouchedHere(current, was, i, desired, After(l, changes));
      RenewStep(current, was, i, l, desired, c, changes);
      changes := changes + [Delete(current[i].prefix)];
      deleted[i] := true;
      changes := changes + [Replace(p)];
      assert deleted[..] == was[i := true];
    }
  }

  lemma UntouchedHere(current: seq<Entry>, deleted: seq<bool>, i: nat, d: seq<Prefix>, k: Link)
    requires |deleted| == |current| && Untouched(current, deleted, d, k)
    requires i < |current| && View(current[i]).Some? && (!deleted[i] || current[i].prefix in d)
    ensures current[i].prefix in k
  {
  }

  /******* Phase four: addresses held under another length *******/

  /** Deleting an unwanted entry that is still there. */
  lemma DropStep(current: seq<Entry>, deleted: seq<bool>, i: nat, l: Link, d: seq<Prefix>, c: Counts, cs: seq<Change>)
    requires |deleted| == |current| && i < |current| && !deleted[i] && current[i].prefix !in d
    requires View(current[i]).Some? && !Settled(l, d)
    requires Stage(l, d, c, cs) && Untouched(current, deleted, d, After(l, cs))
    requires forall a, b | 0 <= a < b < |current| :: current[a].prefix != current[b].prefix
    ensures Stage(l, d, c, cs + [Delete(current[i].prefix)])
    ensures Untouched(current, deleted[i := true], d, After(l, cs + [Delete(current[i].prefix)]))
  {
    hide Settled, View;
    var q := current[i].prefix;
    DeleteStep(l, d, cs, q);
    hide Sound, After, Placed;
    AtDelete(l, d, c, After(l, cs), q);
  }

  lemma DisplaceOne(l: Link, d: seq<Prefix>, c: Counts, cs: seq<Change>)
    requires Normal(d) && Stage(l, d, c, cs) && c.displace < |d| && Due(l, d[c.displace], Displace)
    requires forall q | q in After(l, cs) && q in l :: q.addr != d[c.displace].addr
    ensures Stage(l, d, c.Next(Displace), cs + [Replace(d[c.displace])])
    ensures forall q :: q in After(l, cs + [Replace(d[c.displace])]) <==> q in After(l, cs) || q == d[c.displace]
  {
    var p := d[c.displace];
    assert p in d && Placed(l, p, c.displace, c, After(l, cs));
    NotSettled(l, d, p);
    ReplaceAllowed(l, d, After(l, cs), p);
    ReplaceStep(l, d, cs, p);
    hide Sound, After, Settled, Due, Placed, Allowed;
    AtPlace(l, d, c, Displace, After(l, cs), After(l, cs + [Replace(p)]));
  }

  lemma DisplaceStep(current: seq<Entry>, deleted: seq<bool>, l: Link, d: seq<Prefix>, byPrefix: map<Prefix, int>,
                     byIP: ByIP, c: Counts, cs: seq<Change>)
    requires Known(current, l, d, byPrefix, byIP) && |deleted| == |current|
    requires Stage(l, d, c, cs) && Untouched(current, deleted, d, After(l, cs))
    requires c.displace < |d| && Due(l, d[c.displace], Displace)
    requires Dropped(current, deleted, Conflicts(byIP, d[c.displace].addr), d)
    ensures Stage(l, d, c.Next(Displace), cs + [Replace(d[c.displace])])
    ensures Untouched(current, deleted, d, After(l, cs + [Replace(d[c.displace])]))
  {
    hide Stage, After, Due, Untouched, Known;
    KnownParts(current, l, d, byPrefix, byIP);
    ConflictsCleared(current, deleted, l, d, byPrefix, byIP, d[c.displace], After(l, cs));
    DisplaceOne(l, d, c, cs);
    AddedUntouched(current, deleted, d, d[c.displace], After(l, cs), After(l, cs + [Replace(d[c.displace])]));
  }

  lemma AddedUntouched(current: seq<Entry>, deleted: seq<bool>, d: seq<Prefix>, p: Prefix, k: Link, next: Link)
    requires |deleted| == |current| && Untouched(current, deleted, d, k) && p in d
    requires forall q :: q in next <==> q in k || q == p
    ensures Untouched(current, deleted, d, next)
  {
  }

  lemma ConflictsCleared(current: seq<Entry>, deleted: seq<bool>, l: Link, d: seq<Prefix>, byPrefix: map<Prefix, int>,
                         byIP: ByIP, p: Prefix, k: Link)
    requires Known(current, l, d, byPrefix, byIP) && |deleted| == |current|
    requires Untouched(current, deleted, d, k) && Dropped(current, deleted, Conflicts(byIP, p.addr), d)
    ensures forall q | q in k && q in l :: q.addr != p.addr
  {
    hide View, IndexOk, LinkOk, Normal;
    ClashIff(current, l, d, byPrefix, byIP, p);
    forall q | q in k && q in l ensures q.addr != p.addr {
      var i :| 0 <= i < |current| && View(current[i]) == Some(q);
      ViewIs(current[i]);
    }
  }

  lemma ConflictUnwanted(current: seq<Entry>, l: Link, d: seq<Prefix>, byPrefix: map<Prefix, int>, byIP: ByIP,
                         p: Prefix, j: nat)
    requires Known(current, l, d, byPrefix, byIP) && p in d && p !in l && j < |Conflicts(byIP, p.addr)|
    ensures 0 <= Conflicts(byIP, p.addr)[j] < |current| && current[Conflicts(byIP, p.addr)[j]].prefix !in d
    ensures View(current[Conflicts(byIP, p.addr)[j]]).Some?
  {
    hide View;
    var i := Conflicts(byIP, p.addr)[j];
    assert HoldsAddr(current, |current|, i, p.addr);
    if current[i].prefix in d {
      WantedApart(d, p, current[i].prefix);
    }
  }

  lemma ConflictInRange(current: seq<Entry>, l: Link, d: seq<Prefix>, byPrefix: map<Prefix, int>, byIP: ByIP, a: Addr,
                        j: nat)
    requires Known(current, l, d, byPrefix, byIP) && j < |Conflicts(byIP, a)|
    ensures 0 <= Conflicts(byIP, a)[j] < |current| && View(current[Conflicts(byIP, a)[j]]).Some?
  {
    hide View;
    assert HoldsAddr(current, |current|, Conflicts(byIP, a)[j], a);
  }

  ghost predicate Dropped(current: seq<Entry>, deleted: seq<bool>, conflicts: seq<int>, d: seq<Prefix>)
    requires |deleted| == |current|
  {
    forall i | i in conflicts :: 0 <= i < |current| && deleted[i] && current[i].prefix !in d
  }

  lemma DropConflict(current: seq<Entry>, deleted: seq<bool>, l: Link, d: seq<Prefix>, byPrefix: map<Prefix, int>,
                     byIP: ByIP, p: Prefix, j: nat, c: Counts, cs: seq<Change>)
    requires Known(current, l, d, byPrefix, byIP) && |deleted| == |current| && p in d && p !in l
    requires j < |Conflicts(byIP, p.addr)| && 0 <= Conflicts(byIP, p.addr)[j] < |current|
    requires Stage(l, d, c, cs) && Untouched(current, deleted, d, After(l, cs))
    requires Dropped(current, deleted, Conflicts(byIP, p.addr)[..j], d)
    ensures var i := Conflicts(byIP, p.addr)[j];
            if deleted[i] then Dropped(current, deleted, Conflicts(byIP, p.addr)[..j + 1], d)
            else
              && Stage(l, d, c, cs + [Delete(current[i].prefix)])
              && Untouched(current, deleted[i := true], d, After(l, cs + [Delete(current[i].prefix)]))
              && Dropped(current, deleted[i := true], Conflicts(byIP, p.addr)[..j + 1], d)
  {
    hide Stage, After, Untouched, IndexOk, Settled, LinkOk, Normal, Dropped, View;
    var i := Conflicts(byIP, p.addr)[j];
    ConflictUnwanted(current, l, d, byPrefix, byIP, p, j);
    NotSettled(l, d, p);
    DroppedNext(current, deleted, Conflicts(byIP, p.addr), j, d);
    if !deleted[i] {
      DropStep(current, deleted, i, l, d, c, cs);
    } else {
      assert deleted[i := true] == deleted;
    }
  }

  lemma DroppedNext(current: seq<Entry>, deleted: seq<bool>, conflicts: seq<int>, j: nat, d: seq<Prefix>)
    requires |deleted| == |current| && j < |conflicts| && Dropped(current, deleted, conflicts[..j], d)
    requires 0 <= conflicts[j] < |current| && current[conflicts[j]].prefix !in d
    ensures Dropped(current, deleted[conflicts[j] := true], conflicts[..j + 1], d)
  {
    assert conflicts[..j + 1] == conflicts[..j] + [conflicts[j]];
  }

  /** Removes every current entry that holds the address of a wanted prefix under another length. */
  method DropConflicts(current: seq<Entry>, desired: seq<Prefix>, ghost byPrefix: map<Prefix, int>, byIP: ByIP,
                       ghost l: Link, p: Prefix, ghost c: Counts, before: seq<Change>, deleted: array<bool>)
    returns (changes: seq<Change>)
    requires Known(current, l, desired, byPrefix, byIP) && deleted.Length == |current| && p in desired && p !in l
    requires Stage(l, desired, c, before) && Untouched(current, deleted[..], desired, After(l, before))
    requires forall c | c in before :: Proper(desired, c)
    modifies deleted
    ensures Stage(l, desired, c, changes) && Untouched(current, deleted[..], desired, After(l, changes))
    ensures Dropped(current, deleted[..], Conflicts(byIP, p.addr), desired)
    ensures (forall c | c in changes :: Proper(desired, c)) && forall c | c in before :: c in changes
  {
    hide Stage, Known, After, Untouched, Settled, Dropped, View, Addr.Is4In6;
    changes := before;
    var conflicts := Conflicts(byIP, p.addr);
    DroppedNone(current, deleted[..], desired);
    assert conflicts[..0] == [];
    for j := 0 to |conflicts|
      invariant Stage(l, desired, c, changes) && Untouched(current, deleted[..], desired, After(l, changes))
      invariant Dropped(current, deleted[..], conflicts[..j], desired)
      invariant (forall c | c in changes :: Proper(desired, c)) && forall c | c in before :: c in changes
    {
      var i := conflicts[j];
      ConflictInRange(current, l, desired, byPrefix, byIP, p.addr, j);
      ViewIs(current[i]);
      ghost var was := deleted[..];
      DropConflict(current, was, l, desired, byPrefix, byIP, p, j, c, changes);
      if deleted[i] {
        continue;
      }
      changes := changes + [Delete(current[i].prefix)];
      deleted[i] := true;
      assert deleted[..] == was[i := true];
    }
    assert conflicts[..|conflicts|] == conflicts;
  }

  lemma DroppedNone(current: seq<Entry>, deleted: seq<bool>, d: seq<Prefix>)
    requires |deleted| == |current|
    ensures Dropped(current, deleted, [], d)
  {
  }

  method DisplacePhase(current: seq<Entry>, desired: seq<Prefix>, byPrefix: map<Prefix, int>, byIP: ByIP,
                       ghost l: Link, before: seq<Change>, deleted: array<bool>) returns (changes: seq<Change>)
    requires Known(current, l, desired, byPrefix, byIP) && deleted.Length == |current|
    requires Stage(l, desired, Counts(|desired|, |desired|, |desired|, 0), before)
    requires Untouched(current, deleted[..], desired, After(l, before))
    requires forall c | c in before :: Proper(desired, c)
    modifies deleted
    ensures Stage(l, desired, Counts(|desired|, |desired|, |desired|, |desired|), changes)
    ensures Untouched(current, deleted[..], desired, After(l, changes))
    ensures (forall c | c in changes :: Proper(desired, c)) && forall c | c in before :: c in changes
  {
    hide Stage, Known, LinkOk, Normal, After, Untouched, Dropped, View, Addr.Is4In6;
    changes := before;
    for n := 0 to |desired|
      invariant Stage(l, desired, Counts(|desired|, |desired|, |desired|, n), changes)
      invariant Untouched(current, deleted[..], desired, After(l, changes))
      invariant (forall c | c in changes :: Proper(desired, c)) && forall c | c in before :: c in changes
    {
      var p := desired[n];
      ghost var c := Counts(|desired|, |desired|, |desired|, n);
      SeenIff(current, l, desired, byPrefix, byIP, p);
      ClashIff(current, l, desired, byPrefix, byIP, p);
      if p in byPrefix || Conflicts(byIP, p.addr) == [] {
        StageSkip(l, desired, c, Displace, changes);
        continue;
      }
      changes := DropConflicts(current, desired, byPrefix, byIP, l, p, c, changes, deleted);
      DisplaceStep(current, deleted[..], l, desired, byPrefix, byIP, c, changes);
      changes := changes + [Replace(p)];
    }
  }

  /******* Phase five: what nobody wants *******/

  /** The deletions after the first `n` entries: one for each entry that is neither
      retained nor deleted already. */
  ghost predicate Sweeping(current: seq<Entry>, retained: seq<bool>, deleted: seq<bool>, n: nat, sweep: seq<Change>)
    requires n <= |current| == |retained| == |deleted|
  {
    && (forall c | c in sweep :: c.Delete?)
    && (forall i | 0 <= i < |current| :: Delete(current[i].prefix) in sweep <==> i < n && !retained[i] && !deleted[i])
    && (forall c | c in sweep :: exists i :: 0 <= i < n && current[i].prefix == c.prefix)
    && (forall a, b | 0 <= a < b < |sweep| :: sweep[a] != sweep[b])
  }

  lemma SweepOne(current: seq<Entry>, retained: seq<bool>, deleted: seq<bool>, n: nat, sweep: seq<Change>)
    requires n < |current| == |retained| == |deleted| && Sweeping(current, retained, deleted, n, sweep)
    requires forall i, j | 0 <= i < j < |current| :: current[i].prefix != current[j].prefix
    ensures if retained[n] || deleted[n] then Sweeping(current, retained, deleted, n + 1, sweep)
            else Sweeping(current, retained, deleted, n + 1, sweep + [Delete(current[n].prefix)])
  {
    if !retained[n] && !deleted[n] {
      var next := sweep + [Delete(current[n].prefix)];
      assert Delete(current[n].prefix) !in sweep;
      forall c | c in next ensures exists i :: 0 <= i < n + 1 && current[i].prefix == c.prefix {
        if c in sweep {
          var i :| 0 <= i < n && current[i].prefix == c.prefix;
        } else {
          assert current[n].prefix == c.prefix;
        }
      }
    }
  }

  method SweepPhase(current: seq<Entry>, retained: array<bool>, deleted: array<bool>) returns (sweep: seq<Change>)
    requires deleted.Length == retained.Length == |current|
    requires forall i, j | 0 <= i < j < |current| :: current[i].prefix != current[j].prefix
    ensures Sweeping(current, retained[..], deleted[..], |current|, sweep)
  {
    sweep := [];
    assert Sweeping(current, retained[..], deleted[..], 0, sweep);
    hide Sweeping;
    for i := 0 to |current|
      invariant Sweeping(current, retained[..], deleted[..], i, sweep)
    {
      SweepOne(current, retained[..], deleted[..], i, sweep);
      if retained[i] || deleted[i] {
        continue;
      }
      sweep := sweep + [Delete(current[i].prefix)];
    }
  }

  /******* From what is seen to the whole link *******/

  /** An IPv4-mapped prefix on the link, which no listing shows. */
  predicate Hidden(l: Link, p: Prefix) {
    p in l && p.addr.Is4In6()
  }

  /** Without changes to hidden prefixes, the link and its visible part develop alike. */
  lemma {:induction false} SameOutside(l: Link, cs: seq<Change>)
    requires forall c | c in cs && c.Delete? :: !c.prefix.addr.Is4In6()
    ensures forall q | !Hidden(l, q) ::
              && (q in After(l, cs) <==> q in After(Seen(l), cs))
              && (q in After(l, cs) ==> After(l, cs)[q] == After(Seen(l), cs)[q])
    ensures forall q | Hidden(l, q) :: q in After(l, cs)
  {
    if cs != [] {
      var init, last := cs[..|cs| - 1], cs[|cs| - 1];
      assert cs == init + [last];
      SameOutside(l, init);
      AfterSnoc(l, init, last);
      AfterSnoc(Seen(l), init, last);
      hide After, Addr.Is4In6;
    }
  }

  lemma {:induction false} AfterDeletes(l: Link, cs: seq<Change>, sweep: seq<Change>)
    requires forall c | c in sweep :: c.Delete?
    ensures forall q :: q in After(l, cs + sweep) <==> q in After(l, cs) && Delete(q) !in sweep
    ensures forall q | q in After(l, cs + sweep) :: After(l, cs + sweep)[q] == After(l, cs)[q]
  {
    if sweep == [] {
      assert cs + [] == cs;
    } else {
      var init, last := sweep[..|sweep| - 1], sweep[|sweep| - 1];
      assert sweep == init + [last];
      AfterDeletes(l, cs, init);
      assert cs + sweep == (cs + init) + [last];
      AfterSnoc(l, cs + init, last);
      assert last in sweep && forall c | c in init :: c in sweep;
      assert forall q :: Delete(q) in sweep <==> Delete(q) in init || q == last.prefix;
      hide After;
    }
  }

  /** A plan runs when each of its changes is accepted in its turn. */
  lemma {:induction false} RunsIff(l: Link, cs: seq<Change>)
    ensures Runs(l, cs) <==> forall n | 0 <= n < |cs| :: Allowed(After(l, cs[..n]), cs[n])
  {
    if cs != [] {
      var init := cs[..|cs| - 1];
      RunsIff(l, init);
      hide After, Allowed;
      forall n | 0 <= n < |init| ensures init[..n] == cs[..n] && init[n] == cs[n] {
      }
    }
  }

  /** A wanted mapped prefix finds its address on the link under another length. */
  ghost predicate Clash(l: Link, c: Change) {
    c.Replace? && c.prefix.addr.Is4In6() && exists q :: q in l && q.addr == c.prefix.addr && q != c.prefix
  }

  ghost predicate Clashless(l: Link, d: seq<Prefix>) {
    forall p | p in d :: !Clash(l, Replace(p))
  }

  /** What the phases have planned. */
  ghost predicate Phased(current: seq<Entry>, retained: seq<bool>, deleted: seq<bool>, l: Link, d: seq<Prefix>,
                         cs: seq<Change>, sweep: seq<Change>)
  {
    && |retained| == |deleted| == |current|
    && LinkOk(l) && Lists(current, l) && Normal(d)
    && Stage(Seen(l), d, Counts(|d|, |d|, |d|, |d|), cs)
    && Untouched(current, deleted, d, After(Seen(l), cs))
    && (forall c | c in cs :: Proper(d, c))
    && (forall p | p in d && p.addr.Is4In6() :: Replace(p) in cs)
    && (forall i | 0 <= i < |current| :: retained[i] <==> View(current[i]).Some? && current[i].prefix in d)
    && Sweeping(current, retained, deleted, |current|, sweep)
  }

  /** What the sweep removes: hidden prefixes, and visible unwanted ones that are still there. */
  lemma SweepIs(current: seq<Entry>, retained: seq<bool>, deleted: seq<bool>, l: Link, d: seq<Prefix>,
                cs: seq<Change>, sweep: seq<Change>, q: Prefix)
    requires Phased(current, retained, deleted, l, d, cs, sweep)
    ensures Delete(q) in sweep <==> Hidden(l, q) || (q in Seen(l) && q !in d && q in After(Seen(l), cs))
  {
    hide Stage, After, Normal, Proper;
    if q in l {
      var i :| 0 <= i < |current| && current[i].prefix == q;
      assert View(current[i]).Some? <==> !q.addr.Is4In6();
    } else {
      assert forall c | c in sweep :: c.prefix in l;
    }
  }

  lemma AllowedSeen(l: Link, d: seq<Prefix>, cs: seq<Change>, n: nat)
    requires (forall c | c in cs :: Proper(d, c)) && Runs(Seen(l), cs) && n < |cs|
    ensures Allowed(After(l, cs[..n]), cs[n]) <==> !Clash(l, cs[n])
    ensures Clash(l, cs[n]) ==>
              exists q :: q in After(l, cs[..n]) && q.addr == cs[n].prefix.addr && q != cs[n].prefix
  {
    RunsIff(Seen(l), cs);
    assert cs[n] in cs && Proper(d, cs[n]);
    forall c | c in cs[..n] && c.Delete? ensures !c.prefix.addr.Is4In6() {
      assert c in cs && Proper(d, c);
    }
    SameOutside(l, cs[..n]);
    hide After, Runs;
    assert cs[n].prefix.addr.Is4In6() ==> cs[n].prefix.addr.Is6();
    hide Addr.Is4In6, Addr.Is6;
    if Clash(l, cs[n]) {
      var q :| q in l && q.addr == cs[n].prefix.addr && q != cs[n].prefix;
      assert Hidden(l, q);
    }
  }

  lemma ClashStops(l: Link, d: seq<Prefix>, p: Prefix, k: Link)
    requires Normal(d) && p in d && exists q :: q in k && q.addr == p.addr && q != p
    ensures !Settled(k, d)
  {
    var q :| q in k && q.addr == p.addr && q != p;
    if q in d {
      WantedApart(d, p, q);
    }
  }

  lemma AllowedSweep(current: seq<Entry>, retained: seq<bool>, deleted: seq<bool>, l: Link, d: seq<Prefix>,
                     cs: seq<Change>, sweep: seq<Change>, n: nat)
    requires Phased(current, retained, deleted, l, d, cs, sweep) && n < |sweep|
    ensures Allowed(After(l, cs + sweep[..n]), sweep[n])
  {
    assert sweep[n] in sweep;
    assert forall c | c in sweep[..n] :: c in sweep;
    SweepIs(current, retained, deleted, l, d, cs, sweep, sweep[n].prefix);
    SameOutside(l, cs);
    AfterDeletes(l, cs, sweep[..n]);
    hide After, Stage, Normal, LinkOk, Lists, Untouched;
  }

  /** An interrupted plan has not settled the link. */
  ghost predicate StopsShort(l: Link, d: seq<Prefix>, cs: seq<Change>) {
    forall n | 0 <= n < |cs| && !Allowed(After(l, cs[..n]), cs[n]) :: !Settled(After(l, cs[..n]), d)
  }

  lemma PhasedParts(current: seq<Entry>, retained: seq<bool>, deleted: seq<bool>, l: Link, d: seq<Prefix>,
                    cs: seq<Change>, sweep: seq<Change>)
    requires Phased(current, retained, deleted, l, d, cs, sweep)
    ensures Sound(Seen(l), d, cs) && Normal(d) && forall c | c in cs :: Proper(d, c)
    ensures forall p | p in d && p.addr.Is4In6() :: Replace(p) in cs
    ensures forall c | c in sweep :: c.Delete?
  {
    hide Sound, Normal, Proper, Untouched, LinkOk, Lists, After, At, Addr.Is4In6, View;
  }

  lemma PlanStepSeen(l: Link, d: seq<Prefix>, cs: seq<Change>, n: nat)
    requires Sound(Seen(l), d, cs) && Normal(d) && (forall c | c in cs :: Proper(d, c)) && n < |cs|
    ensures Allowed(After(l, cs[..n]), cs[n]) <==> !Clash(l, cs[n])
    ensures Clash(l, cs[n]) ==> !Settled(After(l, cs[..n]), d)
  {
    AllowedSeen(l, d, cs, n);
    assert cs[n] in cs && Proper(d, cs[n]);
    hide After, Settled, Allowed, Sound, Normal;
    if Clash(l, cs[n]) {
      ClashStops(l, d, cs[n].prefix, After(l, cs[..n]));
    }
  }

  lemma PlanStep(current: seq<Entry>, retained: seq<bool>, deleted: seq<bool>, l: Link, d: seq<Prefix>,
                 cs: seq<Change>, sweep: seq<Change>, n: nat)
    requires Phased(current, retained, deleted, l, d, cs, sweep) && n < |cs + sweep|
    ensures Allowed(After(l, (cs + sweep)[..n]), (cs + sweep)[n]) <==> !(n < |cs| && Clash(l, cs[n]))
    ensures n < |cs| && Clash(l, cs[n]) ==> !Settled(After(l, (cs + sweep)[..n]), d)
  {
    hide Phased, Clash, After, Settled, Allowed, Sound, Normal, Proper;
    if n < |cs| {
      assert (cs + sweep)[..n] == cs[..n];
      PhasedParts(current, retained, deleted, l, d, cs, sweep);
      PlanStepSeen(l, d, cs, n);
    } else {
      assert (cs + sweep)[..n] == cs + sweep[..n - |cs|];
      AllowedSweep(current, retained, deleted, l, d, cs, sweep, n - |cs|);
    }
  }

  lemma PlanRuns(current: seq<Entry>, retained: seq<bool>, deleted: seq<bool>, l: Link, d: seq<Prefix>,
                 cs: seq<Change>, sweep: seq<Change>)
    requires Phased(current, retained, deleted, l, d, cs, sweep)
    ensures Runs(l, cs + sweep) <==> Clashless(l, d)
    ensures StopsShort(l, d, cs + sweep)
  {
    RunsIff(l, cs + sweep);
    PhasedParts(current, retained, deleted, l, d, cs, sweep);
    hide Phased, Clash, Clashless, After, Runs, Allowed, Settled, Sound, Normal, Proper, Addr.Is4In6;
    forall n | 0 <= n < |cs + sweep|
      ensures Allowed(After(l, (cs + sweep)[..n]), (cs + sweep)[n]) <==> !(n < |cs| && Clash(l, cs[n]))
      ensures n < |cs| && Clash(l, cs[n]) ==> !Settled(After(l, (cs + sweep)[..n]), d)
    {
      PlanStep(current, retained, deleted, l, d, cs, sweep, n);
    }
    ClashPlanned(l, d, cs);
  }

  lemma ClashPlanned(l: Link, d: seq<Prefix>, cs: seq<Change>)
    requires forall c | c in cs :: Proper(d, c)
    requires forall p | p in d && p.addr.Is4In6() :: Replace(p) in cs
    ensures Clashless(l, d) <==> forall n | 0 <= n < |cs| :: !Clash(l, cs[n])
  {
    hide Addr.Is4In6;
    forall n | 0 <= n < |cs| && Clash(l, cs[n]) ensures !Clashless(l, d) {
      assert Proper(d, cs[n]);
      assert cs[n] == Replace(cs[n].prefix);
    }
    if !Clashless(l, d) {
      var p :| p in d && Clash(l, Replace(p));
      var n :| 0 <= n < |cs| && cs[n] == Replace(p);
    }
  }

  lemma StageGood(l: Link, d: seq<Prefix>, cs: seq<Change>, p: Prefix)
    requires Stage(l, d, Counts(|d|, |d|, |d|, |d|), cs) && p in d
    ensures Good(After(l, cs), p)
  {
    var j :| 0 <= j < |d| && d[j] == p;
    SomePhase(l, p);
    assert Placed(l, d[j], j, Counts(|d|, |d|, |d|, |d|), After(l, cs));
  }

  /** Where a plan leads, prefix by prefix. */
  lemma PlanEnd(current: seq<Entry>, retained: seq<bool>, deleted: seq<bool>, l: Link, d: seq<Prefix>,
                cs: seq<Change>, sweep: seq<Change>, p: Prefix)
    requires Phased(current, retained, deleted, l, d, cs, sweep)
    ensures p in After(l, cs + sweep) <==> p in d && !Hidden(l, p)
    ensures p in After(l, cs + sweep) ==> Good(After(l, cs + sweep), p)
  {
    SweepIs(current, retained, deleted, l, d, cs, sweep, p);
    SameOutside(l, cs);
    AfterDeletes(l, cs, sweep);
    if p in d {
      StageGood(Seen(l), d, cs, p);
    }
    assert OnlyWanted(Seen(l), d, After(Seen(l), cs));
    hide After, Stage, Normal, LinkOk, Lists, Untouched, Sweeping, Proper;
  }

  lemma PlanKeeps(current: seq<Entry>, retained: seq<bool>, deleted: seq<bool>, l: Link, d: seq<Prefix>,
                  cs: seq<Change>, sweep: seq<Change>, n: nat)
    requires Phased(current, retained, deleted, l, d, cs, sweep) && n <= |cs + sweep|
    ensures Keeps(l, d, After(l, (cs + sweep)[..n]))
  {
    var m := if n <= |cs| then n else |cs|;
    assert (cs + sweep)[..n] == cs[..m] + sweep[..n - m];
    PhasedParts(current, retained, deleted, l, d, cs, sweep);
    hide Phased, After, Runs, AdditionsFirst, OnlyWanted, Normal, Proper;
    forall p | p in d && Fine(l, p) && !p.addr.Is4In6() ensures Delete(p) !in sweep {
      SweepIs(current, retained, deleted, l, d, cs, sweep, p);
    }
    KeepsSeen(l, d, cs, m, sweep[..n - m]);
  }

  lemma KeepsSeen(l: Link, d: seq<Prefix>, cs: seq<Change>, m: nat, sweep: seq<Change>)
    requires KeepsAlways(Seen(l), d, cs) && m <= |cs|
    requires (forall c | c in cs :: Proper(d, c)) && forall c | c in sweep :: c.Delete?
    requires forall p | p in d && Fine(l, p) && !p.addr.Is4In6() :: Delete(p) !in sweep
    ensures Keeps(l, d, After(l, cs[..m] + sweep))
  {
    assert Keeps(Seen(l), d, After(Seen(l), cs[..m]));
    assert forall c | c in cs[..m] :: c in cs && Proper(d, c);
    SameOutside(l, cs[..m]);
    AfterDeletes(l, cs[..m], sweep);
    hide After, Addr.Is4In6;
  }

  lemma NeedsDeleteSeen(l: Link, p: Prefix)
    requires NeedsDelete(Seen(l), p)
    ensures NeedsDelete(l, p)
  {
    hide Addr.Is4In6;
    if p !in Seen(l) {
      var q :| q in Seen(l) && q.addr == p.addr;
      assert q in l;
    }
  }

  lemma PlanFirst(l: Link, d: seq<Prefix>, cs: seq<Change>, sweep: seq<Change>)
    requires AdditionsFirst(Seen(l), cs) && forall c | c in sweep :: c.Delete?
    ensures AdditionsFirst(l, cs + sweep)
  {
    var plan := cs + sweep;
    assert forall m | |cs| <= m < |plan| :: plan[m] == sweep[m - |cs|] && plan[m] in sweep;
    forall i, j | 0 <= i < j < |plan| && plan[i].Delete? && plan[j].Replace? ensures NeedsDelete(l, plan[j].prefix) {
      assert plan[i] == cs[i] && plan[j] == cs[j];
      NeedsDeleteSeen(l, cs[j].prefix);
    }
  }

  lemma PlanEmpty(current: seq<Entry>, retained: seq<bool>, deleted: seq<bool>, l: Link, d: seq<Prefix>,
                  cs: seq<Change>, sweep: seq<Change>)
    requires Phased(current, retained, deleted, l, d, cs, sweep)
    ensures cs + sweep == [] <==> Settled(l, d) && Plain(d)
  {
    hide After, Normal, LinkOk, Untouched, Sound, At;
    if Settled(l, d) && Plain(d) {
      assert Seen(l) == l;
      if sweep != [] {
        assert sweep[0] in sweep;
        SweepIs(current, retained, deleted, l, d, cs, sweep, sweep[0].prefix);
        assert false;
      }
    }
    if cs + sweep == [] {
      forall p ensures (p in l <==> p in d && !Hidden(l, p)) && (p in l ==> Good(l, p)) {
        PlanEnd(current, retained, deleted, l, d, cs, sweep, p);
        AfterNothing(l);
      }
    }
  }

  lemma AfterNothing(l: Link)
    ensures After(l, []) == l
  {
  }

  /******* The plan *******/

  /** What executing a plan does to the link, whatever the link held. The link ends with
      the wanted prefixes, all good, except those that were on it without being listed:
      the plan adds those again and then deletes them. */
  ghost predicate Planned(l: Link, d: seq<Prefix>, cs: seq<Change>) {
    && (Runs(l, cs) <==> Clashless(l, d)) && StopsShort(l, d, cs)
    && (forall p :: p in After(l, cs) <==> p in d && !Hidden(l, p))
    && (forall p | p in After(l, cs) :: Good(After(l, cs), p))
    && KeepsAlways(l, d, cs) && AdditionsFirst(l, cs)
    && (cs == [] <==> Settled(l, d) && Plain(d))
  }

  lemma PlanEnds(current: seq<Entry>, retained: seq<bool>, deleted: seq<bool>, l: Link, d: seq<Prefix>,
                 cs: seq<Change>, sweep: seq<Change>)
    requires Phased(current, retained, deleted, l, d, cs, sweep)
    ensures forall p :: p in After(l, cs + sweep) <==> p in d && !Hidden(l, p)
    ensures forall p | p in After(l, cs + sweep) :: Good(After(l, cs + sweep), p)
  {
    hide Phased, After, Good, Hidden;
    forall p
      ensures p in After(l, cs + sweep) <==> p in d && !Hidden(l, p)
      ensures p in After(l, cs + sweep) ==> Good(After(l, cs + sweep), p)
    {
      PlanEnd(current, retained, deleted, l, d, cs, sweep, p);
    }
  }

  lemma PlanKeepsAlways(current: seq<Entry>, retained: seq<bool>, deleted: seq<bool>, l: Link, d: seq<Prefix>,
                        cs: seq<Change>, sweep: seq<Change>)
    requires Phased(current, retained, deleted, l, d, cs, sweep)
    ensures KeepsAlways(l, d, cs + sweep)
  {
    hide Phased, After, Keeps;
    forall n | 0 <= n <= |cs + sweep| ensures Keeps(l, d, After(l, (cs + sweep)[..n])) {
      PlanKeeps(current, retained, deleted, l, d, cs, sweep, n);
    }
  }

  lemma PhasedPlanned(current: seq<Entry>, retained: seq<bool>, deleted: seq<bool>, l: Link, d: seq<Prefix>,
                      cs: seq<Change>, sweep: seq<Change>)
    requires Phased(current, retained, deleted, l, d, cs, sweep)
    ensures Planned(l, d, cs + sweep)
  {
    hide Phased, After, Runs, AdditionsFirst, Keeps, KeepsAlways, Good, Hidden, StopsShort, Settled, Clashless, Plain;
    hide Normal, Proper, Addr.Is4In6;
    PhasedParts(current, retained, deleted, l, d, cs, sweep);
    PlanFirst(l, d, cs, sweep);
    PlanRuns(current, retained, deleted, l, d, cs, sweep);
    PlanEmpty(current, retained, deleted, l, d, cs, sweep);
    PlanEnds(current, retained, deleted, l, d, cs, sweep);
    PlanKeepsAlways(current, retained, deleted, l, d, cs, sweep);
  }

  /** No wanted mapped address is on the link, under whatever length. */
  ghost predicate MappedFree(l: Link, d: seq<Prefix>) {
    forall p, q | p in d && p.addr.Is4In6() && q in l :: q.addr != p.addr
  }

  /** A plan runs and settles the link exactly when no wanted mapped address is on it. */
  lemma SettlesIff(l: Link, d: seq<Prefix>, cs: seq<Change>)
    requires Planned(l, d, cs)
    ensures Runs(l, cs) && Settled(After(l, cs), d) <==> MappedFree(l, d)
  {
    hide After, Runs, KeepsAlways, AdditionsFirst, StopsShort, Addr.Is4In6;
    if MappedFree(l, d) {
      assert forall p | p in d :: !Hidden(l, p);
    } else {
      var p, q :| p in d && p.addr.Is4In6() && q in l && q.addr == p.addr;
      if q == p {
        assert Hidden(l, p);
      } else {
        assert Clash(l, Replace(p));
      }
    }
  }

  /** Two updates in a row put every wanted mapped prefix back where it was: absent if it
      was there, and there if it was absent. */
  lemma MappedPrefixesAlternate(l: Link, d: seq<Prefix>, cs: seq<Change>, again: seq<Change>, p: Prefix)
    requires Normal(d) && Planned(l, d, cs) && Planned(After(l, cs), d, again) && p in d && p.addr.Is4In6()
    ensures Runs(After(l, cs), again)
    ensures p in After(l, cs) <==> p !in l
    ensures p in After(After(l, cs), again) <==> p in l
  {
    var k := After(l, cs);
    hide After, Runs, KeepsAlways, AdditionsFirst, StopsShort, Addr.Is4In6, Good, Normal, Settled;
    forall w | w in d && Clash(k, Replace(w)) ensures false {
      var q :| q in k && q.addr == w.addr && q != w;
      WantedApart(d, q, w);
    }
  }

  method PlanReconciliation(current: seq<Entry>, desired: seq<Prefix>, ghost l: Link) returns (r: Option<seq<Change>>)
    requires LinkOk(l) && Lists(current, l)
    ensures r.Some? <==> Consistent(desired)
    ensures r.Some? ==> Planned(l, desired, r.value)
  {
    hide Stage, Untouched, Consistent, Planned, IndexOk, RefreshedTo, NoDeletes, Sweeping, After, View, Normal, LinkOk;
    hide Shows, Known, Phased, Lists, Proper, Addr.Is4In6;
    var normalized := NormalizePrefixes(desired);
    if normalized.None? {
      return None;
    }
    var wanted := normalized.value;
    ghost var v := Seen(l);
    ShowsSeen(current, l);
    var byPrefix, byIP, retained := IndexCurrent(current, set p | p in wanted);
    KnownNow(current, v, wanted, byPrefix, byIP);
    var deleted := new bool[|current|](_ => false);
    var changes := RefreshPhase(current, wanted, byPrefix, byIP, v);
    RefreshDone(v, wanted, changes);
    changes := AddPhase(current, wanted, byPrefix, byIP, v, changes);
    NothingDeleted(current, deleted[..], v, wanted, changes);
    changes := RenewPhase(current, wanted, byPrefix, byIP, v, changes, deleted);
    changes := DisplacePhase(current, wanted, byPrefix, byIP, v, changes, deleted);
    ListedOnce(current, l);
    var sweep := SweepPhase(current, retained, deleted);
    PhasesDone(current, retained[..], deleted[..], l, wanted, changes, sweep);
    PhasedPlanned(current, retained[..], deleted[..], l, wanted, changes, sweep);
    PlannedSame(l, wanted, desired, changes + sweep);
    return Some(changes + sweep);
  }

  lemma KnownNow(current: seq<Entry>, l: Link, d: seq<Prefix>, byPrefix: map<Prefix, int>, byIP: ByIP)
    requires LinkOk(l) && Shows(current, l) && Normal(d) && IndexOk(current, |current|, byPrefix, byIP)
    ensures Known(current, l, d, byPrefix, byIP)
  {
  }

  lemma ListedOnce(current: seq<Entry>, l: Link)
    requires Lists(current, l)
    ensures forall i, j | 0 <= i < j < |current| :: current[i].prefix != current[j].prefix
  {
  }

  lemma PhasesDone(current: seq<Entry>, retained: seq<bool>, deleted: seq<bool>, l: Link, d: seq<Prefix>,
                   cs: seq<Change>, sweep: seq<Change>)
    requires |retained| == |deleted| == |current| && LinkOk(l) && Lists(current, l) && Normal(d)
    requires Stage(Seen(l), d, Counts(|d|, |d|, |d|, |d|), cs)
    requires Untouched(current, deleted, d, After(Seen(l), cs)) && forall c | c in cs :: Proper(d, c)
    requires forall p | p in d && p.addr.Is4In6() :: Replace(p) in cs
    requires forall i | 0 <= i < |current| :: retained[i] <==> View(current[i]).Some? && current[i].prefix in d
    requires Sweeping(current, retained, deleted, |current|, sweep)
    ensures Phased(current, retained, deleted, l, d, cs, sweep)
  {
    hide Stage, Untouched, After, View, Normal, LinkOk, Lists, Proper, Sweeping, Addr.Is4In6;
  }

  lemma NothingDeleted(current: seq<Entry>, deleted: seq<bool>, l: Link, d: seq<Prefix>, cs: seq<Change>)
    requires Shows(current, l) && |deleted| == |current| && forall i | 0 <= i < |deleted| :: !deleted[i]
    requires forall p | p in l :: p in After(l, cs)
    ensures Untouched(current, deleted, d, After(l, cs))
  {
    hide View, After;
  }

  lemma PlannedSame(l: Link, d: seq<Prefix>, e: seq<Prefix>, cs: seq<Change>)
    requires Planned(l, d, cs) && forall p :: p in d <==> p in e
    ensures Planned(l, e, cs)
  {
    hide After, Runs, AdditionsFirst, Good, Allowed, Clash, Hidden, Addr.Is4In6;
    forall k: Link ensures Settled(k, d) <==> Settled(k, e) {
    }
    forall k: Link ensures Keeps(l, d, k) <==> Keeps(l, e, k) {
    }
  }

  /******* Adding one prefix *******/

  ghost predicate OthersKept(l: Link, p: Prefix, k: Link) {
    && (forall q | q in l && q.addr != p.addr :: q in k && k[q] == l[q])
    && (forall q | q in k :: q in l || q == p)
  }

  /** The prefix ends up good, other addresses are untouched, an IPv4 neighbour under
      another length stays, and a good IPv6 prefix needs no change at all. */
  ghost predicate AdditionCorrect(l: Link, p: Prefix, cs: seq<Change>) {
    && Runs(l, cs) && Good(After(l, cs), p) && OthersKept(l, p, After(l, cs))
    && KeepsAlways(l, [p], cs)
    && (p.addr.Is6() && Good(l, p) ==> cs == [])
    && (!p.addr.Is6() ==> forall q | q in l :: q in After(l, cs))
  }

  lemma NormalOne(p: Prefix)
    requires p.IsValid()
    ensures Normal([p]) && Consistent([p])
  {
  }

  lemma AddDirectly(l: Link, p: Prefix)
    requires p.IsValid() && (p.addr.Is6() ==> Fine(l, p) || forall q | q in l :: q.addr != p.addr)
    requires LinkOk(l) && !(p.addr.Is6() && Good(l, p))
    ensures AdditionCorrect(l, p, [Replace(p)])
  {
    NormalOne(p);
    SoundStart(l, [p]);
    ReplaceAllowedHere(l, p);
    ReplaceStep(l, [p], [], p);
    assert [] + [Replace(p)] == [Replace(p)];
  }

  lemma ReplaceAllowedHere(l: Link, p: Prefix)
    requires p.IsValid() && LinkOk(l) && (p.addr.Is6() ==> p in l || forall q | q in l :: q.addr != p.addr)
    ensures Allowed(l, Replace(p))
  {
  }

  lemma AddAgain(l: Link, p: Prefix)
    requires p.IsValid() && LinkOk(l) && p in l && p.addr.Is6() && !Fine(l, p)
    ensures AdditionCorrect(l, p, [Delete(p), Replace(p)])
  {
    NormalOne(p);
    SoundStart(l, [p]);
    DeleteStep(l, [p], [], p);
    assert [] + [Delete(p)] == [Delete(p)];
    ReplaceAllowed(l, [p], After(l, [Delete(p)]), p);
    ReplaceStep(l, [p], [Delete(p)], p);
    assert [Delete(p)] + [Replace(p)] == [Delete(p), Replace(p)];
  }

  /** Where the deletions of conflicting lengths stand. */
  ghost predicate Clearing(l: Link, p: Prefix, current: seq<Entry>, conflicts: seq<int>, n: nat, cs: seq<Change>)
    requires n <= |conflicts| && forall j | 0 <= j < |conflicts| :: 0 <= conflicts[j] < |current|
  {
    && Sound(l, [p], cs)
    && (forall q :: q in After(l, cs) <==> q in l && forall j | 0 <= j < n :: current[conflicts[j]].prefix != q)
    && (forall q | q in After(l, cs) :: After(l, cs)[q] == l[q])
  }

  lemma ClearStep(l: Link, p: Prefix, current: seq<Entry>, conflicts: seq<int>, n: nat, cs: seq<Change>)
    requires n < |conflicts| && forall j | 0 <= j < |conflicts| :: 0 <= conflicts[j] < |current|
    requires Clearing(l, p, current, conflicts, n, cs) && current[conflicts[n]].prefix in l
             && current[conflicts[n]].prefix != p
    requires forall j | 0 <= j < n :: current[conflicts[j]].prefix != current[conflicts[n]].prefix
    ensures Clearing(l, p, current, conflicts, n + 1, cs + [Delete(current[conflicts[n]].prefix)])
  {
    DeleteStep(l, [p], cs, current[conflicts[n]].prefix);
    hide Sound, After;
  }

  lemma ClearedAdd(l: Link, p: Prefix, current: seq<Entry>, conflicts: seq<int>, cs: seq<Change>)
    requires p.IsValid() && p.addr.Is6() && p !in l && forall j | 0 <= j < |conflicts| :: 0 <= conflicts[j] < |current|
    requires Clearing(l, p, current, conflicts, |conflicts|, cs)
    requires forall q | q in l && q.addr == p.addr ::
               exists j :: 0 <= j < |conflicts| && current[conflicts[j]].prefix == q
    requires forall j | 0 <= j < |conflicts| ::
              current[conflicts[j]].prefix in l && current[conflicts[j]].prefix.addr == p.addr
    requires conflicts == [] ==> cs == []
    ensures AdditionCorrect(l, p, cs + [Replace(p)])
  {
    NormalOne(p);
    ReplaceAllowed(l, [p], After(l, cs), p);
    if conflicts != [] {
      assert current[conflicts[0]].prefix in l;
      assert NeedsDelete(l, p);
    }
    ReplaceStep(l, [p], cs, p);
    hide After, Runs, AdditionsFirst;
  }

  method PlanExistingAddition(entry: Entry, p: Prefix, ghost l: Link) returns (changes: seq<Change>)
    requires LinkOk(l) && p.IsValid() && p.addr.Is6() && entry.prefix == p && p in l && l[p] == entry.flags
    ensures AdditionCorrect(l, p, changes)
  {
    if entry.flags.nodad && !entry.flags.unusable {
      SoundStart(l, [p]);
      return [];
    }
    if !entry.flags.unusable {
      AddDirectly(l, p);
      return [Replace(p)];
    }
    AddAgain(l, p);
    return [Delete(p), Replace(p)];
  }

  /** An IPv4-mapped prefix is planned as a plain addition, whatever the link holds. */
  method PlanAddition(current: seq<Entry>, p: Prefix, ghost l: Link) returns (r: Option<seq<Change>>)
    requires LinkOk(l) && Lists(current, l)
    ensures r.Some? <==> p.IsValid()
    ensures r.Some? && !p.addr.Is4In6() ==> AdditionCorrect(l, p, r.value)
    ensures r.Some? && p.addr.Is4In6() ==> r.value == [Replace(p)]
  {
    if !p.IsValid() {
      return None;
    }
    if !p.addr.Is6() {
      AddDirectly(l, p);
      return Some([Replace(p)]);
    }
    hide AdditionCorrect, Clearing, View, LinkOk, Addr.Is4In6;
    var conflicts: seq<int> := [];
    for i := 0 to |current|
      invariant forall j | 0 <= j < |conflicts| ::
                  0 <= conflicts[j] < i && current[conflicts[j]].prefix.addr == p.addr
                  && current[conflicts[j]].prefix != p
      invariant forall a, b | 0 <= a < b < |conflicts| :: conflicts[a] != conflicts[b]
      invariant !p.addr.Is4In6() ==> forall c | 0 <= c < i && current[c].prefix.addr == p.addr :: c in conflicts
      invariant p.addr.Is4In6() ==> conflicts == []
    {
      ViewIs(current[i]);
      if !p.addr.Is4In6() && current[i].prefix.addr == p.addr {
        ViewHere(l, current[i], p);
      }
      var view := View(current[i]);
      if view.None? || view.value.addr != p.addr {
        continue;
      }
      if view.value != p {
        conflicts := conflicts + [i];
        continue;
      }
      var existing := PlanExistingAddition(current[i], p, l);
      return Some(existing);
    }
    var changes := DeleteConflicts(current, conflicts, p, l);
    if !p.addr.Is4In6() {
      ConflictsComplete(current, l, p, conflicts);
      ClearedAdd(l, p, current, conflicts, changes);
    }
    return Some(changes + [Replace(p)]);
  }

  /** Adding a mapped prefix works exactly when its address is not on the link under another
      length and it is not there unusable; other addresses are untouched in any case. */
  lemma MappedAddition(l: Link, p: Prefix)
    requires p.IsValid() && p.addr.Is4In6()
    ensures Runs(l, [Replace(p)]) <==> !Clash(l, Replace(p))
    ensures Good(After(l, [Replace(p)]), p) <==> p !in l || Fine(l, p)
    ensures OthersKept(l, p, After(l, [Replace(p)]))
  {
    assert [] + [Replace(p)] == [Replace(p)];
    AfterSnoc(l, [], Replace(p));
  }

  lemma ViewHere(l: Link, e: Entry, p: Prefix)
    requires LinkOk(l) && e.prefix in l && !p.addr.Is4In6() && e.prefix.addr == p.addr
    ensures View(e).Some?
  {
  }

  lemma ConflictsComplete(current: seq<Entry>, l: Link, p: Prefix, conflicts: seq<int>)
    requires Lists(current, l)
    requires forall j | 0 <= j < |conflicts| ::
               0 <= conflicts[j] < |current| && current[conflicts[j]].prefix.addr == p.addr
               && current[conflicts[j]].prefix != p
    requires forall c | 0 <= c < |current| && current[c].prefix.addr == p.addr :: c in conflicts
    ensures p !in l
    ensures forall q | q in l && q.addr == p.addr ::
              exists j :: 0 <= j < |conflicts| && current[conflicts[j]].prefix == q
  {
    forall q | q in l && q.addr == p.addr
      ensures exists j :: 0 <= j < |conflicts| && current[conflicts[j]].prefix == q
    {
      var i :| 0 <= i < |current| && current[i].prefix == q;
      assert i in conflicts;
    }
  }

  method DeleteConflicts(current: seq<Entry>, conflicts: seq<int>, ghost p: Prefix, ghost l: Link)
    returns (changes: seq<Change>)
    requires Lists(current, l)
    requires forall j | 0 <= j < |conflicts| :: 0 <= conflicts[j] < |current| && current[conflicts[j]].prefix != p
    requires forall a, b | 0 <= a < b < |conflicts| :: conflicts[a] != conflicts[b]
    ensures Clearing(l, p, current, conflicts, |conflicts|, changes)
    ensures conflicts == [] ==> changes == []
  {
    hide Clearing;
    changes := [];
    ClearStart(l, p, current, conflicts);
    for n := 0 to |conflicts|
      invariant Clearing(l, p, current, conflicts, n, changes)
      invariant n == 0 ==> changes == []
    {
      assert forall j | 0 <= j < n :: current[conflicts[j]].prefix != current[conflicts[n]].prefix;
      ClearStep(l, p, current, conflicts, n, changes);
      changes := changes + [Delete(current[conflicts[n]].prefix)];
    }
  }

  lemma ClearStart(l: Link, p: Prefix, current: seq<Entry>, conflicts: seq<int>)
    requires forall j | 0 <= j < |conflicts| :: 0 <= conflicts[j] < |current|
    ensures Clearing(l, p, current, conflicts, 0, [])
  {
    SoundStart(l, [p]);
  }
}
