/** The manager: reconciles the kernel with a configuration through the adapter. */
module Managers {
  import opened Netip
  import opened Policy
  import opened Kernel
  import opened Transition
  import opened Steps
  import opened Adapters

  /******* Vocabulary of the contracts *******/

  ghost predicate SafeSince(ch: Change, trace: seq<KernelState>, n: nat) {
    forall i | n <= i < |trace| :: Safe(ch, trace[i])
  }

  /** Only the one table differs. */
  ghost predicate OnlyTable(before: KernelState, k: KernelState, id: TableId) {
    && k.v4 == before.v4 && k.v6 == before.v6
    && forall other: TableId | other != id :: TableOf(k.tables, other) == TableOf(before.tables, other)
  }

  /** The rule lists and the tables outside the configurations' own are as before. */
  ghost predicate ForeignKept(cs: seq<Config>, before: KernelState, k: KernelState) {
    && Outside(Scope(cs, V4), k.v4) == Outside(Scope(cs, V4), before.v4)
    && Outside(Scope(cs, V6), k.v6) == Outside(Scope(cs, V6), before.v6)
    && forall id: TableId | !OwnedTable(cs, id) :: TableOf(k.tables, id) == TableOf(before.tables, id)
  }

  /** Nothing of the configurations is left. */
  ghost predicate OwnedEmpty(cs: seq<Config>, k: KernelState) {
    && Inside(Scope(cs, V4), k.v4) == [] && Inside(Scope(cs, V6), k.v6) == []
    && forall id: TableId | OwnedTable(cs, id) :: TableOf(k.tables, id) == map[]
  }

  ghost predicate OwnFamilies(k: KernelState) {
    (forall r | r in k.v4 :: r.family == V4) && (forall r | r in k.v6 :: r.family == V6)
  }

  /** Both rule lists are as the kernel keeps them: sorted, without repetition, by family. */
  ghost predicate Tidy(k: KernelState) {
    OwnFamilies(k) && Sorted(k.v4) && Sorted(k.v6) && NoDup(k.v4) && NoDup(k.v6)
  }

  /** What every call of the manager keeps, however it ends. */
  ghost predicate Kept(cs: seq<Config>, before: KernelState, k: KernelState) {
    ForeignKept(cs, before, k) && (OwnFamilies(before) ==> OwnFamilies(k)) && (Tidy(before) ==> Tidy(k))
  }

  lemma KeptSelf(cs: seq<Config>, k: KernelState)
    ensures Kept(cs, k, k)
  {
  }

  lemma KeptTrans(cs: seq<Config>, a: KernelState, b: KernelState, c: KernelState)
    requires Kept(cs, a, b) && Kept(cs, b, c)
    ensures Kept(cs, a, c)
  {
    hide Tidy, OwnFamilies, Scope;
  }

  /** Every rule was there before, except guards of the configurations. */
  ghost predicate NothingNew(cs: seq<Config>, before: KernelState, k: KernelState) {
    forall f: Family, x | x in k.Rules(f) :: x in before.Rules(f) || x in GuardSet(cs, f)
  }

  lemma NothingNewTrans(cs: seq<Config>, a: KernelState, b: KernelState, c: KernelState)
    requires NothingNew(cs, a, b) && NothingNew(cs, b, c)
    ensures NothingNew(cs, a, c)
  {
    hide GuardSet;
  }

  /** Rules have gone, none has come, and the others are in the order they were in. */
  ghost predicate Fewer(before: KernelState, k: KernelState) {
    Part(k.v4, before.v4) && Part(k.v6, before.v6)
  }

  predicate KeepRule(r: Rule, keep: seq<Rule>) {
    exists c | c in keep :: r == c || r == ListedRule(c)
  }

  predicate SharesGuardSlot(r: Rule, guards: seq<Rule>) {
    exists g | g in guards :: r.family == g.family && r.priority == g.priority
  }

  /** The guards of every configuration, each once. */
  method TransitionGuards(cs: seq<Config>) returns (out: seq<Rule>)
    ensures forall g :: g in out <==> g in GuardSet(cs, g.family)
    ensures NoDup(out)
  {
    out := [];
    for i := 0 to |cs|
      invariant forall g :: g in out <==> g in GuardSet(cs[..i], g.family)
      invariant NoDup(out)
    {
      var families := cs[i].families.ToSeq();
      ghost var start := out;
      for j := 0 to |families|
        invariant NoDup(out)
        invariant forall g :: g in out <==>
                  g in start || (g.family in families[..j] && g == TransitionGuard(cs[i], g.family))
      {
        var guard := TransitionGuard(cs[i], families[j]);
        if guard !in out {
          out := out + [guard];
        }
      }
      assert families[..|families|] == families;
      assert cs[..i + 1] == cs[..i] + [cs[i]];
      assert forall f: Family :: f in families <==> cs[i].families.Has(f);
    }
    assert cs[..|cs|] == cs;
  }

  datatype RuleScope = RuleScope(config: Config, family: Family)

  ghost predicate ScopesOf(cs: seq<Config>, scopes: seq<RuleScope>) {
    && (forall s | s in scopes :: s.config in cs && s.config.families.Has(s.family))
    && (forall c, f: Family | c in cs && c.families.Has(f) :: HasScope(scopes, f, c.base, c.span))
  }

  /** No two scopes have the same family and priority block. */
  ghost predicate ScopesApart(scopes: seq<RuleScope>) {
    forall i, j | 0 <= i < j < |scopes| ::
      !(scopes[i].family == scopes[j].family && scopes[i].config.base == scopes[j].config.base
        && scopes[i].config.span == scopes[j].config.span)
  }

  predicate HasScope(scopes: seq<RuleScope>, f: Family, base: int, span: int) {
    exists s | s in scopes :: s.family == f && s.config.base == base && s.config.span == span
  }

  /** One scope for each family and priority block, without repetition. */
  method OwnedRuleScopes(cs: seq<Config>) returns (out: seq<RuleScope>)
    ensures ScopesOf(cs, out) && ScopesApart(out)
  {
    out := [];
    for i := 0 to |cs|
      invariant ScopesOf(cs[..i], out) && ScopesApart(out)
    {
      var c := cs[i];
      var families := c.families.ToSeq();
      for j := 0 to |families|
        invariant forall s | s in out :: s.config in cs[..i + 1] && s.config.families.Has(s.family)
        invariant forall d, f: Family | d in cs[..i] && d.families.Has(f) :: HasScope(out, f, d.base, d.span)
        invariant forall f | f in families[..j] :: HasScope(out, f, c.base, c.span)
        invariant ScopesApart(out)
      {
        if !HasScope(out, families[j], c.base, c.span) {
          var scope := RuleScope(c, families[j]);
          ghost var was := out;
          out := out + [scope];
          forall f: Family, base, span | HasScope(was, f, base, span) ensures HasScope(out, f, base, span) {
            var s :| s in was && s.family == f && s.config.base == base && s.config.span == span;
            assert s in out;
          }
          assert scope in out;
        }
      }
      assert families[..|families|] == families;
      assert cs[..i + 1] == cs[..i] + [c];
      forall d, f: Family | d in cs[..i + 1] && d.families.Has(f) ensures HasScope(out, f, d.base, d.span) {
        if d == c {
          assert f in families;
        }
      }
    }
    assert cs[..|cs|] == cs;
  }

  /** Every table of every configuration in each of its families, each once. */
  method OwnedTableTargets(cs: seq<Config>) returns (out: seq<TableId>)
    ensures forall id: TableId :: id in out <==> OwnedTable(cs, id)
    ensures forall i, j | 0 <= i < j < |out| :: out[i] != out[j]
  {
    out := [];
    for i := 0 to |cs|
      invariant forall id: TableId :: id in out <==> OwnedTable(cs[..i], id)
      invariant forall a, b | 0 <= a < b < |out| :: out[a] != out[b]
    {
      var c := cs[i];
      var families := c.families.ToSeq();
      ghost var start := out;
      for j := 0 to |families|
        invariant forall id: TableId :: id in out <==>
                    id in start || (id.family in families[..j] && (id.table == c.vpnTable || id.table == c.safeTable))
        invariant forall a, b | 0 <= a < b < |out| :: out[a] != out[b]
      {
        var vpn := TableId(families[j], c.vpnTable);
        if vpn !in out {
          out := out + [vpn];
        }
        var safe := TableId(families[j], c.safeTable);
        if safe !in out {
          out := out + [safe];
        }
      }
      assert families[..|families|] == families;
      assert cs[..i + 1] == cs[..i] + [c];
      assert forall f: Family :: f in families <==> c.families.Has(f);
    }
    assert cs[..|cs|] == cs;
  }

  /******* Pieces of the reconciliation *******/

  /** Removes every route of one table of one family, going on after a failure. */
  method FlushTableFamily(a: Adapter, f: Family, t: int) returns (ok: bool)
    requires a.Valid()
    modifies a
    ensures a.Valid() && old(a.trace) <= a.trace && old(a.calls) <= a.calls
    ensures OnlyTable(old(a.state), a.state, TableId(f, t))
    ensures forall i | |old(a.trace)| <= i < |a.trace| :: OnlyTable(old(a.state), a.trace[i], TableId(f, t))
    ensures ok ==> TableOf(a.state.tables, TableId(f, t)) == map[]
    ensures a.NoFailure(old(a.calls), a.calls) ==> ok
  {
    var id := TableId(f, t);
    var listed, routes := a.ListRoutes(f, t);
    if !listed {
      return false;
    }
    ok := true;
    ghost var table := TableOf(a.state.tables, id);
    for i := 0 to |routes|
      invariant a.Valid() && old(a.trace) <= a.trace && old(a.calls) <= a.calls
      invariant OnlyTable(old(a.state), a.state, id)
      invariant forall j | |old(a.trace)| <= j < |a.trace| :: OnlyTable(old(a.state), a.trace[j], id)
      invariant ok ==> forall key | key in TableOf(a.state.tables, id) ::
                  key in table && forall j | 0 <= j < i :: KeyOf(routes[j]) != key
      invariant a.NoFailure(old(a.calls), a.calls) ==> ok
    {
      assert routes[i] in routes && IdOf(routes[i]) == id;
      var deleted := a.DeleteRoute(routes[i]);
      ok := ok && deleted;
    }
    assert forall key | key in table :: exists j :: 0 <= j < |routes| && routes[j] == table[key];
  }

  /** A rule of the block that is not recognised, through its listed form, as one to keep. */
  predicate Dooms(c: Config, keep: seq<Rule>, r: Rule) {
    c.base <= r.priority < c.base + c.span && !KeepRule(ListedRule(r), keep)
  }

  function Doomed(c: Config, keep: seq<Rule>, rs: seq<Rule>): seq<Rule> {
    if rs == [] then [] else (if Dooms(c, keep, rs[0]) then [rs[0]] else []) + Doomed(c, keep, rs[1..])
  }

  /** Unreachable rules without mark and mask, as the guards are. */
  predicate Plain(keep: seq<Rule>) {
    forall g | g in keep :: CatchAll(g) && g.table == 0 && g.mark == 0
  }

  /** No rule that is not doomed has gone. */
  ghost predicate Spared(c: Config, keep: seq<Rule>, before: seq<Rule>, rs: seq<Rule>) {
    forall x | x in before && !Dooms(c, keep, x) :: x in rs
  }

  /** Removes the listed rules of one scope that are not kept, going on after a failure.
      The rules are recognised and deleted through their listed form only. Nothing outside
      the block is ever touched, and no order changes; guards and what is listed like a guard
      stay, from any kernel, and success leaves nothing else in the block. */
  method DeleteOwnedRules(a: Adapter, c: Config, f: Family, keep: seq<Rule>) returns (ok: bool)
    requires a.Valid() && OwnFamilies(a.state)
    modifies a
    ensures a.Valid() && old(a.trace) <= a.trace && old(a.calls) <= a.calls && OwnFamilies(a.state)
    ensures Pruned(old(a.state), a.state, f, BlockOf(c))
    ensures forall i | |old(a.trace)| <= i < |a.trace| :: Pruned(old(a.state), a.trace[i], f, BlockOf(c))
    ensures Plain(keep) ==>
              && Spared(c, keep, old(a.state).Rules(f), a.state.Rules(f))
              && (forall i | |old(a.trace)| <= i < |a.trace| ::
                    Spared(c, keep, old(a.state).Rules(f), a.trace[i].Rules(f)))
              && (ok ==> forall x | x in a.state.Rules(f) :: !Dooms(c, keep, x))
    ensures a.NoFailure(old(a.calls), a.calls) ==> ok
  {
    hide RemoveRule, Pruned, BlockOf, Plain, Spared, Doomed, KeepRule;
    ghost var s, plain, was := BlockOf(c), Plain(keep), a.state.Rules(f);
    PrunedSelf(a.state, f, s);
    SparedSelf(c, keep, was);
    var listed, rules := a.ListRules(f);
    if !listed {
      return false;
    }
    ok := true;
    assert was[0..] == was;
    for i := 0 to |rules|
      invariant a.Valid() && old(a.trace) <= a.trace && old(a.calls) <= a.calls
      invariant Pruned(old(a.state), a.state, f, s)
      invariant forall j | |old(a.trace)| <= j < |a.trace| :: Pruned(old(a.state), a.trace[j], f, s)
      invariant plain ==>
                  && Spared(c, keep, was, a.state.Rules(f))
                  && (forall j | |old(a.trace)| <= j < |a.trace| :: Spared(c, keep, was, a.trace[j].Rules(f)))
                  && (ok ==> Doomed(c, keep, a.state.Rules(f)) == Doomed(c, keep, was[i..]))
      invariant a.NoFailure(old(a.calls), a.calls) ==> ok
    {
      var rule := rules[i];
      assert was[i] in was && rule == ListedRule(was[i]);
      BlockHas(c, rule.priority);
      DoomedNext(c, keep, was, i);
      if rule.priority < c.base || rule.priority >= c.base + c.span || KeepRule(rule, keep) {
        continue;
      }
      PruneStep(old(a.state), a.state, f, s, rule);
      if plain {
        SpareStep(c, keep, was, a.state.Rules(f), was[i]);
        if ok {
          DoomedHead(c, keep, a.state.Rules(f), was[i]);
        }
      }
      var deleted := a.DeleteRule(rule);
      ok := ok && deleted;
    }
    assert was[|rules|..] == [];
    DoomedMembers(c, keep, a.state.Rules(f));
    DoomedMembers(c, keep, []);
    PrunedFamilies(old(a.state), a.state, f, s);
  }

  lemma SparedSelf(c: Config, keep: seq<Rule>, rs: seq<Rule>)
    ensures Spared(c, keep, rs, rs)
  {
  }

  lemma PrunedSelf(k: KernelState, f: Family, s: Selection)
    ensures Pruned(k, k, f, s)
  {
    PartSelf(k.Rules(f));
  }

  lemma PrunedFamilies(before: KernelState, k: KernelState, f: Family, s: Selection)
    requires OwnFamilies(before) && Pruned(before, k, f, s)
    ensures OwnFamilies(k)
  {
    PartMembers(k.Rules(f), before.Rules(f));
    if f.V4? {
      assert k.Rules(V6) == before.Rules(V6);
    } else {
      assert k.Rules(V4) == before.Rules(V4);
    }
  }

  lemma BlockHas(c: Config, p: int)
    ensures BlockOf(c).Has(p) <==> c.base <= p < c.base + c.span
  {
    assert Block(c.base, c.span) in BlockOf(c).blocks;
  }

  lemma {:induction false} DoomedMembers(c: Config, keep: seq<Rule>, rs: seq<Rule>)
    ensures forall x :: x in Doomed(c, keep, rs) <==> x in rs && Dooms(c, keep, x)
  {
    if rs != [] {
      DoomedMembers(c, keep, rs[1..]);
      assert rs == [rs[0]] + rs[1..];
    }
  }

  lemma DoomedNext(c: Config, keep: seq<Rule>, was: seq<Rule>, i: nat)
    requires i < |was|
    ensures Doomed(c, keep, was[i..]) ==
            (if Dooms(c, keep, was[i]) then [was[i]] else []) + Doomed(c, keep, was[i + 1..])
  {
    assert was[i..][0] == was[i] && was[i..][1..] == was[i + 1..];
  }

  /** The request for a doomed rule does not match a rule that is listed like one to keep. */
  lemma DoomedApart(c: Config, keep: seq<Rule>, r: Rule, x: Rule)
    requires Plain(keep) && Dooms(c, keep, r) && !Dooms(c, keep, x)
    ensures !SpecMatches(ListedRule(r), x)
  {
    if SpecMatches(ListedRule(r), x) {
      var g :| g in keep && (ListedRule(x) == g || ListedRule(x) == ListedRule(g));
    }
  }

  lemma SpareStep(c: Config, keep: seq<Rule>, was: seq<Rule>, rs: seq<Rule>, r: Rule)
    requires Plain(keep) && Spared(c, keep, was, rs) && Dooms(c, keep, r)
    ensures Spared(c, keep, was, RemoveRule(rs, ListedRule(r)))
  {
    hide Plain, Dooms, RemoveRule, SpecMatches, ListedRule;
    forall x | x in was && !Dooms(c, keep, x) ensures x in RemoveRule(rs, ListedRule(r)) {
      DoomedApart(c, keep, r, x);
      RemoveSpares(rs, ListedRule(r), x);
    }
  }

  /** The request for the first doomed rule takes exactly that rule away. */
  lemma {:induction false} DoomedHead(c: Config, keep: seq<Rule>, rs: seq<Rule>, r: Rule)
    requires Plain(keep) && Doomed(c, keep, rs) != [] && Doomed(c, keep, rs)[0] == r && Dooms(c, keep, r)
    ensures Doomed(c, keep, RemoveRule(rs, ListedRule(r))) == Doomed(c, keep, rs)[1..]
  {
    hide Plain, Dooms, SpecMatches, ListedRule;
    if Dooms(c, keep, rs[0]) {
      SpecMatchesItself(r);
    } else {
      DoomedApart(c, keep, r, rs[0]);
      DoomedHead(c, keep, rs[1..], r);
      assert RemoveRule(rs, ListedRule(r))[1..] == RemoveRule(rs[1..], ListedRule(r));
    }
  }
}
