/** The upstream configuration built from resolved's answers, and the signature that
    decides whether it has to be installed again. */
module Upstreams {
  import opened Netip
  import opened Order
  import opened Strings
  import opened Resolved

  /******* Selection *******/

  type ServerMap = map<nat, seq<Server>>
  type DomainMap = map<nat, seq<string>>

  datatype Input = Input(domains: seq<string>, servers: seq<Server>)

  /** What resolved reported, and what the provider remembers. `ifidx` 0 is no link. */
  datatype View = View(ifidx: nat, linkServers: seq<Server>, linkDomains: seq<string>,
                       servers: ServerMap, domains: DomainMap,
                       savedServers: seq<Server>, savedDomains: seq<string>, fallback: seq<Server>)

  function ServersAt(m: ServerMap, i: nat): seq<Server> {
    if i in m then m[i] else []
  }

  function DomainsAt(m: DomainMap, i: nat): seq<string> {
    if i in m then m[i] else []
  }

  /** The link's own servers, else what the manager lists for the link, else the saved ones. */
  function Target(v: View, exclude: seq<Addr>): Input {
    var own := Allowed(v.linkServers, exclude);
    if own != [] || v.ifidx == 0 then Input(v.linkDomains, own)
    else
      var listed := Allowed(ServersAt(v.servers, v.ifidx), exclude);
      if listed != [] then Input(DomainsAt(v.domains, v.ifidx), listed)
      else Input(v.savedDomains, Allowed(v.savedServers, exclude))
  }

  function Added(domains: seq<string>, servers: seq<Server>): seq<Input> {
    var unique := UniqueServers(servers);
    if unique == [] then [] else [Input(UniqueDomains(if domains == [] then ["."] else domains), unique)]
  }

  function OneOther(v: View, exclude: seq<Addr>, k: nat): seq<Input> {
    if v.ifidx != 0 && k == v.ifidx then []
    else Added(Normalized(DomainsAt(v.domains, k)), Allowed(ServersAt(v.servers, k), exclude))
  }

  /** The other links in the given order. */
  function Others(v: View, exclude: seq<Addr>, ks: seq<nat>): seq<Input> {
    if ks == [] then []
    else
      var k := ks[|ks| - 1];
      Others(v, exclude, ks[..|ks| - 1]) + OneOther(v, exclude, k)
  }

  function Primary(v: View, exclude: seq<Addr>, ks: seq<nat>): seq<Input> {
    var t := Target(v, exclude);
    Added(Normalized(t.domains), t.servers) + Others(v, exclude, ks)
  }

  function Inputs(v: View, exclude: seq<Addr>, ks: seq<nat>): seq<Input> {
    var first := Primary(v, exclude, ks);
    if first != [] then first else Added(["."], Allowed(v.fallback, exclude))
  }

  ghost predicate SortedKeys(m: ServerMap, ks: seq<nat>) {
    && (forall i, j | 0 <= i < j < |ks| :: ks[i] < ks[j])
    && (forall k :: k in ks <==> k in m)
  }

  /** There is one sorted list of keys, so map order cannot show. */
  lemma SortedKeysUnique(m: ServerMap, a: seq<nat>, b: seq<nat>)
    requires SortedKeys(m, a) && SortedKeys(m, b)
    ensures a == b
  {
    var le := (x: nat, y: nat) => x <= y;
    assert Distinct(a) && Distinct(b);
    forall x ensures multiset(a)[x] == multiset(b)[x] {
      DistinctCounts(a, x);
      DistinctCounts(b, x);
    }
    SortedUnique(le, a, b);
  }

  method InterfaceOrder(m: ServerMap) returns (ks: seq<nat>)
    ensures SortedKeys(m, ks)
  {
    var todo := m.Keys;
    ks := [];
    while todo != {}
      invariant todo <= m.Keys
      invariant forall k :: k in ks <==> k in m && k !in todo
      invariant Distinct(ks)
      decreases todo
    {
      var k :| k in todo;
      ks := ks + [k];
      todo := todo - {k};
    }
    var le := (x: nat, y: nat) => x <= y;
    ghost var before := ks;
    SortSorts(le, ks);
    SortDistinct(le, ks);
    SortPermutes(le, ks);
    ks := Sort(le, ks);
    forall k ensures k in ks <==> k in before {
      assert k in multiset(ks) <==> k in multiset(before);
    }
  }

  /** The route builder collects inputs; servers without a valid address never make one. */
  class Builder {
    var inputs: seq<Input>

    constructor ()
      ensures inputs == []
    {
      inputs := [];
    }

    method Add(servers: seq<Server>, domains: seq<string>)
      modifies this
      ensures inputs == old(inputs) + Added(domains, servers)
    {
      var unique := DedupeServers(servers);
      if unique == [] {
        return;
      }
      var names := DedupeStrings(if domains == [] then ["."] else domains);
      inputs := inputs + [Input(names, unique)];
    }
  }

  /** Filtering a list that is not used again: a copy is filtered in place. */
  method Filtered(servers: seq<Server>, exclude: seq<Addr>) returns (out: seq<Server>)
    ensures out == Allowed(servers, exclude)
  {
    var a := new Server[|servers|](i requires 0 <= i < |servers| => servers[i]);
    assert a[..] == servers;
    var n := FilterAddr(a, exclude);
    out := a[..n];
  }

  method SelectTarget(v: View, exclude: seq<Addr>) returns (t: Input)
    ensures t == Target(v, exclude)
  {
    hide Allowed;
    var servers := Filtered(v.linkServers, exclude);
    if servers != [] || v.ifidx == 0 {
      return Input(v.linkDomains, servers);
    }
    servers := Filtered(ServersAt(v.servers, v.ifidx), exclude);
    if servers != [] {
      return Input(DomainsAt(v.domains, v.ifidx), servers);
    }
    servers := Filtered(v.savedServers, exclude);
    return Input(v.savedDomains, servers);
  }

  lemma OthersStep(v: View, exclude: seq<Addr>, order: seq<nat>, i: nat, start: seq<Input>)
    requires i < |order|
    ensures start + Others(v, exclude, order[..i + 1]) ==
              (start + Others(v, exclude, order[..i])) + OneOther(v, exclude, order[i])
  {
    assert order[..i + 1][..i] == order[..i];
    hide Added, Normalized, Allowed;
    assert Others(v, exclude, order[..i + 1]) == Others(v, exclude, order[..i]) + OneOther(v, exclude, order[i]);
  }

  method AddOne(v: View, exclude: seq<Addr>, builder: Builder, k: nat)
    modifies builder
    ensures builder.inputs == old(builder.inputs) + OneOther(v, exclude, k)
  {
    hide Added, Normalized, Allowed;
    if v.ifidx != 0 && k == v.ifidx {
      return;
    }
    var others := Filtered(ServersAt(v.servers, k), exclude);
    NothingAdded(Normalized(DomainsAt(v.domains, k)));
    if others == [] {
      return;
    }
    builder.Add(others, Normalized(DomainsAt(v.domains, k)));
  }

  method AddOthers(v: View, exclude: seq<Addr>, builder: Builder) returns (ghost ks: seq<nat>)
    modifies builder
    ensures SortedKeys(v.servers, ks) && builder.inputs == old(builder.inputs) + Others(v, exclude, ks)
  {
    var order := InterfaceOrder(v.servers);
    ks := order;
    for i := 0 to |order|
      invariant builder.inputs == old(builder.inputs) + Others(v, exclude, order[..i])
    {
      hide Others, OneOther, SortedKeys;
      OthersStep(v, exclude, order, i, old(builder.inputs));
      AddOne(v, exclude, builder, order[i]);
    }
    assert order[..|order|] == order;
  }

  method SelectInputs(v: View, exclude: seq<Addr>) returns (inputs: seq<Input>)
    ensures exists ks :: SortedKeys(v.servers, ks) && inputs == Inputs(v, exclude, ks)
  {
    hide Added, Normalized, Allowed, Others, Target, SortedKeys;
    var target := SelectTarget(v, exclude);
    var builder := new Builder();
    builder.Add(target.servers, Normalized(target.domains));
    ghost var ks := AddOthers(v, exclude, builder);
    if builder.inputs == [] {
      var fallback := Filtered(v.fallback, exclude);
      builder.Add(fallback, ["."]);
    }
    inputs := builder.inputs;
  }

  lemma NothingAdded(domains: seq<string>)
    ensures Added(domains, []) == []
  {
    UniqueMembers([]);
    EmptyIff(UniqueServers([]));
  }

  /******* What is selected *******/

  predicate Usable(s: Server, exclude: seq<Addr>) {
    s.addr.IsValid() && !Excluded(s.addr, exclude)
  }

  lemma AddedServers(domains: seq<string>, servers: seq<Server>, exclude: seq<Addr>)
    ensures forall x, s | x in Added(domains, Allowed(servers, exclude)) && s in x.servers ::
              s in servers && Usable(s, exclude)
    ensures Added(domains, Allowed(servers, exclude)) == [] <==> forall s | s in servers :: !Usable(s, exclude)
  {
    hide UniqueDomains;
    AllowedMembers(servers, exclude);
    UniqueMembers(Allowed(servers, exclude));
    var unique := UniqueServers(Allowed(servers, exclude));
    assert forall s :: s in unique <==> s in servers && Usable(s, exclude);
    EmptyIff(unique);
  }

  lemma EmptyIff(ss: seq<Server>)
    ensures ss == [] <==> forall s :: s !in ss
  {
    if ss != [] {
      assert ss[0] in ss;
    }
  }

  /** The list the target's servers are taken from. */
  function TargetSource(v: View, exclude: seq<Addr>): seq<Server> {
    if Allowed(v.linkServers, exclude) != [] || v.ifidx == 0 then v.linkServers
    else if Allowed(ServersAt(v.servers, v.ifidx), exclude) != [] then ServersAt(v.servers, v.ifidx)
    else v.savedServers
  }

  lemma TargetServers(v: View, exclude: seq<Addr>)
    ensures Target(v, exclude).servers == Allowed(TargetSource(v, exclude), exclude)
  {
  }

  lemma {:induction false} OthersFacts(v: View, exclude: seq<Addr>, ks: seq<nat>)
    ensures forall x, s | x in Others(v, exclude, ks) && s in x.servers :: Usable(s, exclude)
    ensures Others(v, exclude, ks) == [] <==>
              forall k, s | k in ks && (v.ifidx == 0 || k != v.ifidx) && s in ServersAt(v.servers, k) ::
                !Usable(s, exclude)
  {
    hide Added, Normalized, Allowed;
    if ks != [] {
      var k := ks[|ks| - 1];
      OthersFacts(v, exclude, ks[..|ks| - 1]);
      assert ks == ks[..|ks| - 1] + [k];
      AddedServers(Normalized(DomainsAt(v.domains, k)), ServersAt(v.servers, k), exclude);
    }
  }

  /** No excluded or invalid address is ever an upstream. */
  lemma NeverExcluded(v: View, exclude: seq<Addr>, ks: seq<nat>)
    ensures forall x, s | x in Inputs(v, exclude, ks) && s in x.servers :: Usable(s, exclude)
  {
    hide Added, Normalized, Allowed, Others, Target;
    TargetServers(v, exclude);
    AddedServers(Normalized(Target(v, exclude).domains), TargetSource(v, exclude), exclude);
    OthersFacts(v, exclude, ks);
    AddedServers(["."], v.fallback, exclude);
  }

  /** The fallback is consulted exactly when neither the target's list nor any other
      link has a usable server. */
  lemma FallbackOnlyWhenNothingElse(v: View, exclude: seq<Addr>, ks: seq<nat>)
    requires SortedKeys(v.servers, ks)
    ensures Primary(v, exclude, ks) == [] <==>
              && (forall s | s in TargetSource(v, exclude) :: !Usable(s, exclude))
              && (forall k, s | k in v.servers && (v.ifidx == 0 || k != v.ifidx) && s in v.servers[k] ::
                  !Usable(s, exclude))
    ensures Primary(v, exclude, ks) != [] ==> Inputs(v, exclude, ks) == Primary(v, exclude, ks)
    ensures Primary(v, exclude, ks) == [] ==>
              forall x, s | x in Inputs(v, exclude, ks) && s in x.servers :: s in v.fallback
  {
    hide Added, Normalized, Allowed, Others, Target, TargetSource;
    TargetServers(v, exclude);
    AddedServers(Normalized(Target(v, exclude).domains), TargetSource(v, exclude), exclude);
    OthersFacts(v, exclude, ks);
    AddedServers(["."], v.fallback, exclude);
  }

  /******* Which domains go with which servers *******/

  /** The input made of what was reported for one link: its usable servers, each once, and
      its normalised domains; everything if it reported no domain. */
  ghost predicate MadeOf(x: Input, domains: seq<string>, servers: seq<Server>, exclude: seq<Addr>) {
    && (forall s :: s in x.servers <==> s in servers && Usable(s, exclude)) && Distinct(x.servers)
    && (forall d :: d in x.domains <==>
          if domains == [] then d == "." else exists i | 0 <= i < |domains| :: d == NormalizeDomain(domains[i]))
    && Distinct(x.domains)
  }

  lemma AddedMadeOf(domains: seq<string>, servers: seq<Server>, exclude: seq<Addr>)
    ensures var xs := Added(Normalized(domains), Allowed(servers, exclude));
            && |xs| <= 1 && (xs == [] <==> forall s | s in servers :: !Usable(s, exclude))
            && (xs != [] ==> MadeOf(xs[0], domains, servers, exclude))
  {
    hide NormalizeDomain, UniqueDomains, Allowed, UniqueServers;
    var given := if Normalized(domains) == [] then ["."] else Normalized(domains);
    AddedServers(Normalized(domains), servers, exclude);
    AllowedMembers(servers, exclude);
    UniqueMembers(Allowed(servers, exclude));
    UniqueDomainsMembers(given);
    assert |Normalized(domains)| == |domains|;
    forall d ensures d in given && d != "" <==>
      if domains == [] then d == "." else exists i | 0 <= i < |domains| :: d == NormalizeDomain(domains[i])
    {
      if domains != [] && d in given {
        var i :| 0 <= i < |given| && given[i] == d;
        assert d == NormalizeDomain(domains[i]);
      }
      if domains != [] && exists i | 0 <= i < |domains| :: d == NormalizeDomain(domains[i]) {
        var i :| 0 <= i < |domains| && d == NormalizeDomain(domains[i]);
        assert given[i] == d;
      }
    }
  }

  /** Whether some of these servers may be used as far as exclusion goes. */
  ghost predicate Left(servers: seq<Server>, exclude: seq<Addr>) {
    exists s :: s in servers && !Excluded(s.addr, exclude)
  }

  lemma LeftIff(servers: seq<Server>, exclude: seq<Addr>)
    ensures Left(servers, exclude) <==> Allowed(servers, exclude) != []
  {
    AllowedMembers(servers, exclude);
    EmptyIff(Allowed(servers, exclude));
  }

  /** What the target's input is made of, if it gives one. */
  ghost predicate MadeOfTarget(v: View, exclude: seq<Addr>, x: Input) {
    if Left(v.linkServers, exclude) || v.ifidx == 0 then MadeOf(x, v.linkDomains, v.linkServers, exclude)
    else if Left(ServersAt(v.servers, v.ifidx), exclude) then
      MadeOf(x, DomainsAt(v.domains, v.ifidx), ServersAt(v.servers, v.ifidx), exclude)
    else MadeOf(x, v.savedDomains, v.savedServers, exclude)
  }

  /** The first input comes from the link itself, or from the manager's entry for it, or from
      what was saved, with the domains reported there. */
  lemma TargetMadeOf(v: View, exclude: seq<Addr>)
    ensures var t := Target(v, exclude);
            var xs := Added(Normalized(t.domains), t.servers);
            xs != [] ==> MadeOfTarget(v, exclude, xs[0])
  {
    LeftIff(v.linkServers, exclude);
    LeftIff(ServersAt(v.servers, v.ifidx), exclude);
    AddedMadeOf(v.linkDomains, v.linkServers, exclude);
    AddedMadeOf(DomainsAt(v.domains, v.ifidx), ServersAt(v.servers, v.ifidx), exclude);
    AddedMadeOf(v.savedDomains, v.savedServers, exclude);
    hide Added, Normalized, Allowed, MadeOf, Left;
  }

  /** The links that give an input of their own: not the target, and with a usable server. */
  predicate Counts(v: View, exclude: seq<Addr>, k: nat) {
    (v.ifidx == 0 || k != v.ifidx) && exists s | s in ServersAt(v.servers, k) :: Usable(s, exclude)
  }

  lemma OneOtherMadeOf(v: View, exclude: seq<Addr>, k: nat)
    ensures |OneOther(v, exclude, k)| == if Counts(v, exclude, k) then 1 else 0
    ensures Counts(v, exclude, k) ==>
              MadeOf(OneOther(v, exclude, k)[0], DomainsAt(v.domains, k), ServersAt(v.servers, k), exclude)
  {
    hide Added, Normalized, Allowed, MadeOf;
    AddedMadeOf(DomainsAt(v.domains, k), ServersAt(v.servers, k), exclude);
  }

  /** Inputs one by one made of what was reported for these links. */
  ghost predicate MadeOfLinks(v: View, exclude: seq<Addr>, xs: seq<Input>, ks: seq<nat>) {
    && |xs| == |ks|
    && forall i | 0 <= i < |ks| ::
         MadeOf(xs[i], DomainsAt(v.domains, ks[i]), ServersAt(v.servers, ks[i]), exclude)
  }

  /** The other links, in order: each that counts gives one input, made of what was reported
      for it. */
  lemma {:induction false} OthersMadeOf(v: View, exclude: seq<Addr>, ks: seq<nat>)
    ensures MadeOfLinks(v, exclude, Others(v, exclude, ks), Filter((k: nat) => Counts(v, exclude, k), ks))
  {
    if ks != [] {
      hide MadeOf, OneOther, Counts;
      var init, k := ks[..|ks| - 1], ks[|ks| - 1];
      var p := (k: nat) => Counts(v, exclude, k);
      assert ks == init + [k];
      OthersMadeOf(v, exclude, init);
      FilterSnoc(p, init, k);
      OneOtherMadeOf(v, exclude, k);
      var xs, one := Others(v, exclude, init), OneOther(v, exclude, k);
      assert Others(v, exclude, ks) == xs + one;
      assert Filter(p, ks) == Filter(p, init) + if p(k) then [k] else [];
      hide Filter, Others;
    }
  }

  lemma FallbackMadeOf(v: View, exclude: seq<Addr>)
    ensures var xs := Added(["."], Allowed(v.fallback, exclude));
            |xs| <= 1 && (xs != [] ==> MadeOf(xs[0], [], v.fallback, exclude))
  {
    AddedMadeOf([], v.fallback, exclude);
    hide MadeOf, Allowed;
    assert Normalized([]) == [];
  }

  /** The whole selection: the target's input if it gives one, then one input for each other
      link that counts, in order; the fallback's input, for every domain, only without any
      of them. */
  lemma InputsMadeOf(v: View, exclude: seq<Addr>, ks: seq<nat>)
    ensures var xs := Inputs(v, exclude, ks);
            var others := Filter((k: nat) => Counts(v, exclude, k), ks);
            || (xs != [] && MadeOfTarget(v, exclude, xs[0]) && MadeOfLinks(v, exclude, xs[1..], others))
            || (xs != [] && MadeOfLinks(v, exclude, xs, others))
            || (others == [] && |xs| <= 1 && (xs != [] ==> MadeOf(xs[0], [], v.fallback, exclude)))
  {
    TargetMadeOf(v, exclude);
    OthersMadeOf(v, exclude, ks);
    FallbackMadeOf(v, exclude);
    var t := Target(v, exclude);
    TargetServers(v, exclude);
    AddedMadeOf(t.domains, TargetSource(v, exclude), exclude);
    hide MadeOf, Added, Others, Left, Counts, Filter, Allowed, Normalized, Target, TargetSource;
    var first := Added(Normalized(t.domains), t.servers);
    if first != [] {
      assert (first + Others(v, exclude, ks))[1..] == Others(v, exclude, ks);
    } else {
      assert first + Others(v, exclude, ks) == Others(v, exclude, ks);
    }
  }

  ghost predicate AllValid(v: View) {
    && (forall s | s in v.linkServers || s in v.savedServers :: s.addr.IsValid())
    && (forall k, s | k in v.servers && s in v.servers[k] :: s.addr.IsValid())
  }

  /** With valid addresses the target is unusable only when the link, the manager's entry
      for it and the saved servers all are. */
  lemma TargetUnusable(v: View, exclude: seq<Addr>)
    requires AllValid(v) && v.ifidx != 0
    ensures (forall s | s in TargetSource(v, exclude) :: !Usable(s, exclude)) <==>
              && (forall s | s in v.linkServers :: !Usable(s, exclude))
              && (forall s | s in ServersAt(v.servers, v.ifidx) :: !Usable(s, exclude))
              && (forall s | s in v.savedServers :: !Usable(s, exclude))
  {
    hide Allowed;
    AllowedMembers(v.linkServers, exclude);
    AllowedMembers(ServersAt(v.servers, v.ifidx), exclude);
    EmptyIff(Allowed(v.linkServers, exclude));
    EmptyIff(Allowed(ServersAt(v.servers, v.ifidx), exclude));
  }

  /** The selection is a function of what was reported, whatever the map order. */
  lemma SelectionIgnoresMapOrder(v: View, exclude: seq<Addr>, a: seq<nat>, b: seq<nat>)
    requires SortedKeys(v.servers, a) && SortedKeys(v.servers, b)
    ensures Inputs(v, exclude, a) == Inputs(v, exclude, b)
  {
    SortedKeysUnique(v.servers, a, b);
  }
}
