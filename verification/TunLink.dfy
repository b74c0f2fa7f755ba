/** Executing address plans against a link whose calls may fail, and checking the result. */
module TunLinks {
  import opened Netip
  import opened Addresses

  class TunLink {
    var addrs: Link
    var calls: nat
    ghost var trace: seq<Link>
    const fails: nat -> bool

    constructor (addrs: Link, fails: nat -> bool)
      ensures this.addrs == addrs && this.fails == fails && calls == 0 && trace == []
    {
      this.addrs, this.fails, calls, trace := addrs, fails, 0, [];
    }

    ghost predicate NoFailure(from: nat)
      reads this
    {
      forall n | from <= n < calls :: !fails(n)
    }

    /** Lists every address once, in any order. */
    method List() returns (ok: bool, current: seq<Entry>)
      modifies this`calls
      ensures calls == old(calls) + 1 && ok == !fails(old(calls))
      ensures ok ==> Lists(current, addrs)
    {
      ok := !fails(calls);
      calls := calls + 1;
      var todo := addrs.Keys;
      current := [];
      while todo != {}
        invariant todo <= addrs.Keys
        invariant forall p | p in addrs && p !in todo :: exists i :: 0 <= i < |current| && current[i].prefix == p
        invariant forall i | 0 <= i < |current| ::
                    && current[i].prefix in addrs && current[i].prefix !in todo
                    && addrs[current[i].prefix] == current[i].flags
        invariant forall i, j | 0 <= i < j < |current| :: current[i].prefix != current[j].prefix
        decreases todo
      {
        var p :| p in todo;
        ghost var before := current;
        current := current + [Entry(p, addrs[p])];
        todo := todo - {p};
        forall q | q in addrs && q !in todo ensures exists i :: 0 <= i < |current| && current[i].prefix == q {
          if q == p {
            assert current[|before|].prefix == q;
          } else {
            var i :| 0 <= i < |before| && before[i].prefix == q;
            assert current[i].prefix == q;
          }
        }
      }
    }

    /** A change the kernel does not accept is an error and changes nothing. */
    method Change(c: Change) returns (ok: bool)
      modifies this
      ensures calls == old(calls) + 1
      ensures ok == (!fails(old(calls)) && Allowed(old(addrs), c))
      ensures addrs == (if ok then Exec(old(addrs), c) else old(addrs))
      ensures trace == old(trace) + [addrs]
      ensures LinkOk(old(addrs)) ==> LinkOk(addrs)
    {
      ok := !fails(calls) && Allowed(addrs, c);
      if ok {
        addrs := Exec(addrs, c);
      }
      calls := calls + 1;
      trace := trace + [addrs];
    }
  }

  ghost predicate OnTheWay(l: Link, cs: seq<Change>, k: Link) {
    exists n :: 0 <= n <= |cs| && k == After(l, cs[..n])
  }

  lemma OnWay(l: Link, cs: seq<Change>, n: nat)
    requires n <= |cs|
    ensures OnTheWay(l, cs, After(l, cs[..n]))
  {
  }

  /** The kernel refused one of the changes, and the link is as it was before that change. */
  ghost predicate Refused(l: Link, cs: seq<Change>, k: Link) {
    exists n :: 0 <= n < |cs| && k == After(l, cs[..n]) && !Allowed(k, cs[n])
  }

  lemma RefusedFails(l: Link, cs: seq<Change>, n: nat)
    requires n < |cs| && !Allowed(After(l, cs[..n]), cs[n])
    ensures !Runs(l, cs) && Refused(l, cs, After(l, cs[..n]))
  {
    RunsIff(l, cs);
    hide Allowed, Runs, After;
  }

  /** Stops at the first error; every state on the way is that of some prefix of the plan. */
  method ApplyChanges(link: TunLink, changes: seq<Change>) returns (ok: bool)
    modifies link
    ensures old(link.calls) <= link.calls && old(link.trace) <= link.trace
    ensures forall i | |old(link.trace)| <= i < |link.trace| :: OnTheWay(old(link.addrs), changes, link.trace[i])
    ensures OnTheWay(old(link.addrs), changes, link.addrs)
    ensures LinkOk(old(link.addrs)) ==> LinkOk(link.addrs)
    ensures ok ==> link.addrs == After(old(link.addrs), changes)
    ensures link.NoFailure(old(link.calls)) ==> (ok <==> Runs(old(link.addrs), changes))
    ensures link.NoFailure(old(link.calls)) && !ok ==> Refused(old(link.addrs), changes, link.addrs)
  {
    ghost var l := link.addrs;
    assert changes[..0] == [] && Runs(l, []) && After(l, []) == l;
    hide Allowed, Runs, LinkOk, OnTheWay, After, Exec, Refused;
    OnWay(l, changes, 0);
    for n := 0 to |changes|
      invariant old(link.calls) <= link.calls && old(link.trace) <= link.trace
      invariant link.addrs == After(l, changes[..n]) && (LinkOk(l) ==> LinkOk(link.addrs))
      invariant Runs(l, changes[..n])
      invariant forall i | |old(link.trace)| <= i < |link.trace| :: OnTheWay(l, changes, link.trace[i])
    {
      assert changes[..n + 1] == changes[..n] + [changes[n]];
      AfterSnoc(l, changes[..n], changes[n]);
      OnWay(l, changes, n);
      OnWay(l, changes, n + 1);
      var changed := link.Change(changes[n]);
      if !changed {
        if !Allowed(After(l, changes[..n]), changes[n]) {
          RefusedFails(l, changes, n);
        }
        return false;
      }
    }
    assert changes[..|changes|] == changes;
    OnWay(l, changes, |changes|);
    return true;
  }

  method IndexListing(current: seq<Entry>, ghost l: Link) returns (byPrefix: map<Prefix, Flags>)
    requires Lists(current, l)
    ensures forall p: Prefix | p.IsValid() :: Verified(l, p) <==>
              p in byPrefix && (p.addr.Is6() ==> byPrefix[p] == Flags(true, false))
  {
    hide View;
    byPrefix := map[];
    for i := 0 to |current|
      invariant forall p :: p in byPrefix <==> exists j :: 0 <= j < i && View(current[j]) == Some(p)
      invariant forall p | p in byPrefix :: p in l && byPrefix[p] == l[p]
    {
      ViewIs(current[i]);
      var view := View(current[i]);
      if view.Some? {
        byPrefix := byPrefix[view.value := current[i].flags];
      }
    }
    forall p: Prefix | p.IsValid()
      ensures Verified(l, p) <==> p in byPrefix && (p.addr.Is6() ==> byPrefix[p] == Flags(true, false))
    {
      ListedIff(current, l, p);
    }
  }

  predicate Verified(l: Link, p: Prefix) {
    !p.addr.Is4In6() && Good(l, p)
  }

  /** The final check finds every wanted prefix listed, usable and without duplicate detection. */
  method VerifyPrefixes(link: TunLink, desired: seq<Prefix>) returns (ok: bool)
    requires forall p | p in desired :: p.IsValid()
    modifies link`calls
    ensures link.calls == old(link.calls) + 1
    ensures ok <==> !link.fails(old(link.calls)) && forall p | p in desired :: Verified(link.addrs, p)
  {
    hide View, Lists, Verified;
    var listed, current := link.List();
    if !listed {
      return false;
    }
    var byPrefix := IndexListing(current, link.addrs);
    for n := 0 to |desired|
      invariant link.calls == old(link.calls) + 1
      invariant forall j | 0 <= j < n :: Verified(link.addrs, desired[j])
    {
      var p := desired[n];
      assert p in desired;
      if p !in byPrefix {
        return false;
      }
      if !p.addr.Is6() {
        continue;
      }
      if !byPrefix[p].nodad || byPrefix[p].unusable {
        return false;
      }
    }
    return true;
  }

  lemma ListedIff(current: seq<Entry>, l: Link, p: Prefix)
    requires Lists(current, l) && p.IsValid()
    ensures (exists j :: 0 <= j < |current| && View(current[j]) == Some(p)) <==> !p.addr.Is4In6() && p in l
  {
    if !p.addr.Is4In6() && p in l {
      var j :| 0 <= j < |current| && current[j].prefix == p;
      assert View(current[j]) == Some(p);
    }
  }

  lemma WayKeeps(l: Link, d: seq<Prefix>, cs: seq<Change>, k: Link)
    requires KeepsAlways(l, d, cs) && OnTheWay(l, cs, k)
    ensures Keeps(l, d, k)
  {
  }

  /** Without call failures the update succeeds exactly when the wanted prefixes are
      consistent and none of them is IPv4-mapped; success means exactly those prefixes,
      and whatever happens a wanted listed address that worked never goes away. With mapped
      prefixes the link is still left settled exactly when none of their addresses was on it. */
  method SetPrefixes(link: TunLink, prefixes: seq<Prefix>) returns (ok: bool)
    requires LinkOk(link.addrs)
    modifies link
    ensures old(link.calls) <= link.calls && old(link.trace) <= link.trace
    ensures LinkOk(link.addrs) && Keeps(old(link.addrs), prefixes, link.addrs)
    ensures forall i | |old(link.trace)| <= i < |link.trace| :: Keeps(old(link.addrs), prefixes, link.trace[i])
    ensures ok ==> Consistent(prefixes) && Plain(prefixes) && Settled(link.addrs, prefixes)
    ensures Consistent(prefixes) && Plain(prefixes) && link.NoFailure(old(link.calls)) ==> ok
    ensures Consistent(prefixes) && link.NoFailure(old(link.calls)) ==>
              (Settled(link.addrs, prefixes) <==> MappedFree(old(link.addrs), prefixes))
    ensures Consistent(prefixes) && link.NoFailure(old(link.calls)) && Clashless(old(link.addrs), prefixes) ==>
              forall p :: (p in link.addrs <==> p in prefixes && !Hidden(old(link.addrs), p))
                          && (p in link.addrs ==> Good(link.addrs, p))
  {
    hide LinkOk, Lists, Runs, KeepsAlways, AdditionsFirst, After, Consistent;
    hide Normal, Clashless, MappedFree, Hidden, Good;
    hide Planned;
    ghost var l := link.addrs;
    var desired := NormalizePrefixes(prefixes);
    if desired.None? {
      return false;
    }
    assert forall p | p in desired.value :: p.IsValid() by { NormalValid(desired.value); }
    var listed, current := link.List();
    if !listed {
      return false;
    }
    NormalConsistent(desired.value);
    var changes := PlanReconciliation(current, desired.value, l);
    PlannedSame(l, desired.value, prefixes, changes.value);
    PlanOutcome(l, prefixes, changes.value);
    var applied := ApplyChanges(link, changes.value);
    if !applied {
      return false;
    }
    ok := VerifyPrefixes(link, desired.value);
  }

  /** Every way in which executing a plan can end. */
  lemma PlanOutcome(l: Link, d: seq<Prefix>, cs: seq<Change>)
    requires Planned(l, d, cs)
    ensures forall k | OnTheWay(l, cs, k) :: Keeps(l, d, k)
    ensures Plain(d) ==> MappedFree(l, d)
    ensures Clashless(l, d) <==> Runs(l, cs)
    ensures Runs(l, cs) && Settled(After(l, cs), d) <==> MappedFree(l, d)
    ensures forall k | Refused(l, cs, k) :: !Settled(k, d)
    ensures forall p ::
              (p in After(l, cs) <==> p in d && !Hidden(l, p)) && (p in After(l, cs) ==> Good(After(l, cs), p))
  {
    SettlesIff(l, d, cs);
    hide After, Runs, AdditionsFirst, Clashless, Settled, Addr.Is4In6, Good, Hidden, Allowed;
    forall k | OnTheWay(l, cs, k) ensures Keeps(l, d, k) {
      WayKeeps(l, d, cs, k);
    }
  }

  /** The same for adding one prefix. A mapped one never counts as added, but it is put on
      the link unless its address is there under another length. */
  method AddPrefix(link: TunLink, p: Prefix) returns (ok: bool)
    requires LinkOk(link.addrs)
    modifies link
    ensures old(link.calls) <= link.calls && old(link.trace) <= link.trace && LinkOk(link.addrs)
    ensures forall i | |old(link.trace)| <= i < |link.trace| :: Keeps(old(link.addrs), [p], link.trace[i])
    ensures ok ==> p.IsValid() && !p.addr.Is4In6() && Good(link.addrs, p) && OthersKept(old(link.addrs), p, link.addrs)
    ensures ok && !p.addr.Is6() ==> forall q | q in old(link.addrs) :: q in link.addrs
    ensures p.IsValid() && !p.addr.Is4In6() && link.NoFailure(old(link.calls)) ==> ok
    ensures p.IsValid() && p.addr.Is4In6() && link.NoFailure(old(link.calls)) ==>
              link.addrs == if Clash(old(link.addrs), Replace(p)) then old(link.addrs)
                            else Exec(old(link.addrs), Replace(p))
  {
    hide LinkOk, Lists, Runs, KeepsAlways, After, OthersKept, Clash, Allowed, Addr.Is4In6;
    ghost var l := link.addrs;
    if !p.IsValid() {
      return false;
    }
    var listed, current := link.List();
    if !listed {
      return false;
    }
    var changes := PlanAddition(current, p, l);
    if p.addr.Is4In6() {
      MappedOutcome(l, p);
    } else {
      forall k | OnTheWay(l, changes.value, k) ensures Keeps(l, [p], k) {
        WayKeeps(l, [p], changes.value, k);
      }
    }
    var applied := ApplyChanges(link, changes.value);
    if !applied {
      return false;
    }
    assert forall q | q in [p] :: q == p;
    ok := VerifyPrefixes(link, [p]);
    assert p in [p];
  }

  lemma MappedOutcome(l: Link, p: Prefix)
    requires p.IsValid() && p.addr.Is4In6()
    ensures forall k :: Keeps(l, [p], k)
    ensures Runs(l, [Replace(p)]) <==> !Clash(l, Replace(p))
    ensures forall k | Refused(l, [Replace(p)], k) :: k == l
    ensures After(l, [Replace(p)]) == Exec(l, Replace(p))
  {
    MappedAddition(l, p);
    assert [] + [Replace(p)] == [Replace(p)];
    AfterSnoc(l, [], Replace(p));
    forall k | Refused(l, [Replace(p)], k) ensures k == l {
      var n :| 0 <= n < 1 && k == After(l, [Replace(p)][..n]);
      assert [Replace(p)][..n] == [];
    }
  }

  lemma NormalValid(d: seq<Prefix>)
    requires Normal(d)
    ensures forall p | p in d :: p.IsValid()
  {
  }

  lemma NormalConsistent(d: seq<Prefix>)
    requires Normal(d)
    ensures Consistent(d)
  {
    forall p, q | p in d && q in d && p.addr == q.addr ensures p.len == q.len {
      WantedApart(d, p, q);
    }
  }

  /** ::ffff:1.2.3.4/128 */
  function MappedExample(): Prefix {
    Prefix(Addr(V6, Zeros(80) + Ones(16) + Octet(1) + Octet(2) + Octet(3) + Octet(4), ""), 128)
  }

  lemma MappedExampleFacts()
    ensures MappedExample().IsValid() && MappedExample().addr.Is4In6() && MappedExample().addr.Is6()
  {
    hide Octet;
    assert MappedExample().addr.bits[..96] == Zeros(80) + Ones(16);
  }

  lemma NoClashAgain(d: seq<Prefix>, k: Link)
    requires Consistent(d) && forall p | p in k :: p in d
    ensures Clashless(k, d)
  {
    hide Addr.Is4In6;
  }

  /** Two updates in a row with the same prefixes put every mapped one back where it was:
      what the first adds the second removes, and the other way round. */
  method SetPrefixesTwice(link: TunLink, prefixes: seq<Prefix>) returns (first: bool, second: bool, between: Link)
    requires LinkOk(link.addrs)
    modifies link
    ensures LinkOk(link.addrs)
    ensures link.NoFailure(old(link.calls)) && Consistent(prefixes) && Clashless(old(link.addrs), prefixes) ==>
              && first == second == Plain(prefixes)
              && (forall p :: p in between <==> p in prefixes && !Hidden(old(link.addrs), p))
              && (forall p :: p in link.addrs <==> p in prefixes && (p.addr.Is4In6() ==> p in old(link.addrs)))
              && (forall p | p in link.addrs :: Good(link.addrs, p))
  {
    hide Consistent, Clashless, LinkOk, MappedFree, Settled, Keeps, Good, Addr.Is4In6;
    first := SetPrefixes(link, prefixes);
    between := link.addrs;
    ghost var calls := link.calls;
    if Consistent(prefixes) && forall p | p in between :: p in prefixes {
      NoClashAgain(prefixes, between);
    }
    second := SetPrefixes(link, prefixes);
    assert link.NoFailure(old(link.calls)) ==> forall n | old(link.calls) <= n < calls :: !link.fails(n);
  }

  /** ::ffff:1.2.3.4/128 on an empty link: the first update adds it, the second removes it,
      and both report an error. */
  method MappedPrefixComesAndGoes(link: TunLink) returns (first: bool, second: bool, between: Link)
    requires link.addrs == map[]
    modifies link
    ensures link.NoFailure(old(link.calls)) ==>
              !first && between.Keys == {MappedExample()} && !second && link.addrs == map[]
  {
    hide MappedExample, Keeps, Good, Addr.Is4In6;
    ghost var p := MappedExample();
    MappedExampleFacts();
    NormalOne(p);
    first, second, between := SetPrefixesTwice(link, [MappedExample()]);
    assert p in [MappedExample()];
  }
}
