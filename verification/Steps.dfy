/** How each kind of adapter call moves the kernel through the stages of a change. */
module Steps {
  import opened Netip
  import opened Policy
  import opened Kernel
  import opened Transition
  import opened Safety

  function Added(k: KernelState, r: Rule): KernelState {
    k.WithRules(r.family, AddRule(k.Rules(r.family), r))
  }

  function Removed(k: KernelState, spec: Rule): KernelState {
    k.WithRules(spec.family, RemoveRule(k.Rules(spec.family), spec))
  }

  /******* Lists with some rules left out *******/

  lemma {:induction false} WithoutMembers(gs: set<Rule>, rs: seq<Rule>)
    ensures forall x :: x in Without(gs, rs) <==> x in rs && x !in gs
  {
    if rs != [] {
      WithoutMembers(gs, rs[1..]);
      assert rs == [rs[0]] + rs[1..];
    }
  }

  lemma {:induction false} WithoutInsert(gs: set<Rule>, rs: seq<Rule>, g: Rule)
    requires g in gs
    ensures Without(gs, InsertRule(rs, g)) == Without(gs, rs)
  {
    if rs == [] || g.priority < rs[0].priority {
      assert ([g] + rs)[1..] == rs;
    } else {
      WithoutInsert(gs, rs[1..], g);
      assert InsertRule(rs, g)[1..] == InsertRule(rs[1..], g);
    }
  }

  lemma {:induction false} WithoutNone(gs: set<Rule>, rs: seq<Rule>)
    requires forall x | x in rs :: x !in gs
    ensures Without(gs, rs) == rs
  {
    if rs != [] {
      assert rs[0] in rs;
      WithoutNone(gs, rs[1..]);
      assert rs == [rs[0]] + rs[1..];
    }
  }

  lemma {:induction false} WithoutSorted(gs: set<Rule>, rs: seq<Rule>)
    requires Sorted(rs) && NoDup(rs)
    ensures Sorted(Without(gs, rs)) && NoDup(Without(gs, rs))
  {
    if rs != [] {
      WithoutSorted(gs, rs[1..]);
      WithoutMembers(gs, rs[1..]);
      var rest := Without(gs, rs[1..]);
      forall j | 0 <= j < |rest| ensures rs[0].priority <= rest[j].priority && rs[0] != rest[j] {
        assert rest[j] in rest;
      }
    }
  }

  lemma {:induction false} WithoutOutside(s: Selection, gs: set<Rule>, rs: seq<Rule>)
    requires forall g | g in gs :: s.Has(g.priority)
    ensures Outside(s, Without(gs, rs)) == Outside(s, rs)
  {
    if rs != [] {
      WithoutOutside(s, gs, rs[1..]);
      var rest := Without(gs, rs[1..]);
      if rs[0] in gs {
        assert Without(gs, rs) == rest;
      } else {
        assert Without(gs, rs) == [rs[0]] + rest;
        assert Without(gs, rs)[1..] == rest;
      }
    }
  }

  /******* Installing guards *******/

  /** Inside the blocks there is nothing but what was there and guards. */
  ghost predicate OldOnlyFor(ch: Change, f: Family, rs: seq<Rule>) {
    forall r | r in rs && ch.Owned(f).Has(r.priority) :: r in ch.before.Rules(f) || r in ch.Guards(f)
  }

  ghost predicate OldOnly(ch: Change, k: KernelState) {
    OldOnlyFor(ch, V4, k.v4) && OldOnlyFor(ch, V6, k.v6)
  }

  lemma InstallingOld(ch: Change, k: KernelState)
    requires Installing(ch, k)
    ensures OldOnly(ch, k)
  {
    WithoutMembers(Extra(ch, V4, ch.before.v4), k.v4);
    WithoutMembers(Extra(ch, V6, ch.before.v6), k.v6);
  }

  lemma StartFamily(ch: Change, f: Family)
    requires Starts(ch) && StartsFor(ch, f)
    ensures ShapedFor(ch, f, ch.before.Rules(f))
    ensures Without(Extra(ch, f, ch.before.Rules(f)), ch.before.Rules(f)) == ch.before.Rules(f)
  {
    WithoutNone(Extra(ch, f, ch.before.Rules(f)), ch.before.Rules(f));
  }

  lemma StartInstalling(ch: Change)
    requires Starts(ch)
    ensures Installing(ch, ch.before)
  {
    StartFamily(ch, V4);
    StartFamily(ch, V6);
  }

  /** On a guard's slot that an old rule occupies there is nothing but the two. */
  lemma SlotKinds(ch: Change, f: Family, r: Rule, g: Rule, x: Rule)
    requires Starts(ch) && r in ch.PrevRules(f) && g in ch.Guards(f) && r.priority == g.priority == x.priority
    requires Known(ch, f, x)
    ensures x == r || x == g
  {
    hide Starts, CompileRules, SourceRoutesOk, MarksOverlap, Scope;
    CompiledRuleShape(ch.prev.value.config, f);
    CompiledStrict(ch.prev.value.config, f);
    CompiledRuleShape(ch.next.config, f);
    var d :| d in ch.Configs() && d.families.Has(f) && g == TransitionGuard(d, f);
    if x in ch.PrevRules(f) {
      SeqUnique(ch.PrevRules(f), x, r);
    } else if x in ch.Guards(f) {
      GuardsByPriority(ch, f, x, g);
    }
  }

  /** Adding a guard or a wanted rule keeps the shape. */
  lemma ShapedAdd(ch: Change, k: KernelState, r: Rule)
    requires Starts(ch) && Shaped(ch, k)
    requires r in ch.Guards(r.family) || r in ch.NextRules(r.family)
    ensures Shaped(ch, Added(k, r))
  {
    hide Starts, ShapedFor, AddRule, GuardSet;
    var f := r.family;
    ShapedBoth(ch, k, f);
    ShapedAddFor(ch, f, k.Rules(f), r);
    assert forall h: Family | h != f :: Added(k, r).Rules(h) == k.Rules(h);
    assert ShapedFor(ch, V4, Added(k, r).Rules(V4)) && ShapedFor(ch, V6, Added(k, r).Rules(V6));
  }

  lemma ShapedAddFor(ch: Change, f: Family, rs: seq<Rule>, r: Rule)
    requires Starts(ch) && ShapedFor(ch, f, rs) && r.family == f && (r in ch.Guards(f) || r in ch.NextRules(f))
    ensures ShapedFor(ch, f, AddRule(rs, r))
  {
    StartsBoth(ch, f);
    SlotsAdd(ch, f, rs, r);
    hide Starts, StartsFor, InsertRule, Outside, GuardSet, Scope, OldSlotsFirst, CompileRules;
    AddFacts(rs, r);
    if r in ch.Guards(f) { GuardFacts(ch, f, r); } else { RuleOwned(ch, f, r); }
    OutsideInsert(ch.Owned(f), rs, r);
  }

  /** A rule goes in behind what is there; a guard that is also an old rule finds its slot empty. */
  lemma SlotsAdd(ch: Change, f: Family, rs: seq<Rule>, r: Rule)
    requires Starts(ch) && StartsFor(ch, f) && ShapedFor(ch, f, rs) && (r in ch.Guards(f) || r in ch.NextRules(f))
    ensures OldSlotsFirst(ch, f, AddRule(rs, r))
  {
    hide Starts, StartsFor, CompileRules, InsertRule, FirstAt, Scope, Known;
    AddFacts(rs, r);
    forall q, g | q in ch.PrevRules(f) && q in AddRule(rs, r) && g in ch.Guards(f) && q.priority == g.priority
      ensures FirstAt(AddRule(rs, r), q)
    {
      if q in rs {
        FirstAtInsert(rs, r, q);
      } else {
        SlotEmpty(ch, f, rs, q, g);
      }
    }
  }

  lemma SlotEmpty(ch: Change, f: Family, rs: seq<Rule>, q: Rule, g: Rule)
    requires Starts(ch) && StartsFor(ch, f) && ShapedFor(ch, f, rs) && (q in ch.Guards(f) || q in ch.NextRules(f))
    requires q in ch.PrevRules(f) && q !in rs && g in ch.Guards(f) && q.priority == g.priority
    ensures FirstAt(AddRule(rs, q), q)
  {
    GuardSlotObsolete(ch, f, q, g);
    GuardsByPriority(ch, f, q, g);
    GuardFacts(ch, f, g);
    InsertFacts(rs, q);
    hide Starts, StartsFor, CompileRules, InsertRule, FirstAt, Scope, Known;
    forall x | x in InsertRule(rs, q) && x.priority == q.priority ensures x == q {
      if x in rs {
        ShapedKnown(ch, f, rs, x);
        SlotKinds(ch, f, q, g, x);
      }
    }
    OnlyAtIsFirst(InsertRule(rs, q), q);
  }

  lemma WithoutAdd(extra: set<Rule>, rs: seq<Rule>, before: seq<Rule>, g: Rule)
    requires Without(extra, rs) == before && (g in extra || g in before)
    ensures Without(extra, AddRule(rs, g)) == before
  {
    WithoutMembers(extra, rs);
    if g in extra {
      WithoutInsert(extra, rs, g);
    }
  }

  lemma InstallStep(ch: Change, k: KernelState, g: Rule)
    requires Starts(ch) && Installing(ch, k) && g in ch.Guards(g.family)
    ensures Installing(ch, Added(k, g))
  {
    hide ShapedFor, Without, AddRule;
    hide Starts;
    var f := g.family;
    ShapedAdd(ch, k, g);
    assert g in Extra(ch, f, ch.before.Rules(f)) || g in ch.before.Rules(f);
    WithoutAdd(Extra(ch, f, ch.before.Rules(f)), k.Rules(f), ch.before.Rules(f), g);
  }

  /******* Clearing the guards' slots *******/

  /** Nothing but guards and new rules on the guards' slots. */
  ghost predicate SlotsClear(ch: Change, k: KernelState) {
    forall f: Family, g, x | g in ch.Guards(f) && x in k.Rules(f) && x.priority == g.priority ::
      x == g || x in ch.NextRules(f)
  }

  /** Taking rules away keeps the slots clear and brings nothing new. */
  lemma FewerRules(ch: Change, before: KernelState, k: KernelState)
    requires forall f: Family, x | x in k.Rules(f) :: x in before.Rules(f)
    ensures SlotsClear(ch, before) ==> SlotsClear(ch, k)
    ensures OldOnly(ch, before) ==> OldOnly(ch, k)
  {
    hide GuardSet, CompileRules, Scope;
    assert forall x | x in k.v4 :: x in k.Rules(V4) && x in before.Rules(V4);
    assert forall x | x in k.v6 :: x in k.Rules(V6) && x in before.Rules(V6);
  }

  /** A request that spares the guards keeps the state guarded. */
  lemma GuardedRemove(ch: Change, k: KernelState, spec: Rule)
    requires Starts(ch) && Guarded(ch, k)
    requires ch.Owned(spec.family).Has(spec.priority)
    requires forall g | g in ch.Guards(spec.family) :: g in RemoveRule(k.Rules(spec.family), spec)
    ensures Guarded(ch, Removed(k, spec))
  {
    hide Starts, ShapedFor, RemoveRule, GuardSet;
    var f := spec.family;
    ShapedBoth(ch, k, f);
    ShapedRemove(ch, f, k.Rules(f), spec);
    assert forall h: Family | h != f :: Removed(k, spec).Rules(h) == k.Rules(h);
    assert ShapedFor(ch, V4, Removed(k, spec).Rules(V4)) && ShapedFor(ch, V6, Removed(k, spec).Rules(V6));
  }

  lemma ShapedRemove(ch: Change, f: Family, rs: seq<Rule>, spec: Rule)
    requires ShapedFor(ch, f, rs) && ch.Owned(f).Has(spec.priority)
    ensures ShapedFor(ch, f, RemoveRule(rs, spec))
  {
    PartSelf(rs);
    PartRemove(rs, rs, spec);
    OutsideRemove(ch.Owned(f), rs, spec);
    ShapedPart(ch, f, rs, RemoveRule(rs, spec));
  }

  /** Leaving rules of the blocks out keeps the shape. */
  lemma ShapedPart(ch: Change, f: Family, rs: seq<Rule>, part: seq<Rule>)
    requires ShapedFor(ch, f, rs) && Part(part, rs) && Outside(ch.Owned(f), part) == Outside(ch.Owned(f), rs)
    ensures ShapedFor(ch, f, part)
  {
    hide Part, Outside, Sorted, NoDup, FirstAt, Scope, CompileRules;
    PartMembers(part, rs);
    PartSorted(part, rs);
    forall r, g | r in ch.PrevRules(f) && r in part && g in ch.Guards(f) && r.priority == g.priority
      ensures FirstAt(part, r)
    {
      PartFirstAt(part, rs, r);
    }
  }

  /** Taking an old rule off a guard's slot. */
  lemma ClearStep(ch: Change, k: KernelState, r: Rule, g: Rule)
    requires Starts(ch) && Guarded(ch, k)
    requires r in ch.PrevRules(r.family) && g in ch.Guards(r.family) && r.priority == g.priority && !SpecMatches(r, g)
    ensures Guarded(ch, Removed(k, r))
    ensures r !in Removed(k, r).Rules(r.family)
    ensures forall f: Family, x | x in Removed(k, r).Rules(f) :: x in k.Rules(f)
  {
    var f, rs := r.family, k.Rules(r.family);
    StartsBoth(ch, f);
    ShapedBoth(ch, k, f);
    RuleOwned(ch, f, r);
    SpecMatchesItself(r);
    forall x | x in rs && SpecMatches(r, x) ensures x == r {
      ShapedKnown(ch, f, rs, x);
      SlotKinds(ch, f, r, g, x);
    }
    ShapedSorted(ch, f, rs);
    hide Starts, StartsFor, Shaped, ShapedFor, CompileRules, SpecMatches, RemoveRule, GuardSet, Known;
    RemoveOnly(rs, r, r);
    assert r !in ch.Guards(f) by {
      if r in ch.Guards(f) { GuardsByPriority(ch, f, r, g); }
    }
    GuardedRemove(ch, k, r);
  }

  lemma GuardsByPriority(ch: Change, f: Family, g: Rule, h: Rule)
    requires g in ch.Guards(f) && h in ch.Guards(f) && g.priority == h.priority
    ensures g == h
  {
  }

  /******* Pruning one scope *******/

  /** `k` is `before` with some selected rules of the family taken away. */
  ghost predicate Pruned(before: KernelState, k: KernelState, f: Family, s: Selection) {
    && k.tables == before.tables
    && (forall h: Family | h != f :: k.Rules(h) == before.Rules(h))
    && Outside(s, k.Rules(f)) == Outside(s, before.Rules(f))
    && Part(k.Rules(f), before.Rules(f))
  }

  lemma PruneStep(before: KernelState, k: KernelState, f: Family, s: Selection, spec: Rule)
    requires Pruned(before, k, f, s) && spec.family == f && s.Has(spec.priority)
    ensures Pruned(before, Removed(k, spec), f, s)
  {
    PartRemove(k.Rules(f), before.Rules(f), spec);
    OutsideRemove(s, k.Rules(f), spec);
  }

  /** One configuration's block. */
  function BlockOf(c: Config): Selection {
    Selection([Block(c.base, c.span)], {})
  }

  lemma {:induction false} OutsideCoarser(s: Selection, w: Selection, a: seq<Rule>, b: seq<Rule>)
    requires forall p | s.Has(p) :: w.Has(p)
    requires Outside(s, a) == Outside(s, b)
    ensures Outside(w, a) == Outside(w, b)
  {
    OutsideTwice(s, w, a);
    OutsideTwice(s, w, b);
  }

  lemma {:induction false} OutsideTwice(s: Selection, w: Selection, a: seq<Rule>)
    requires forall p | s.Has(p) :: w.Has(p)
    ensures Outside(w, a) == Outside(w, Outside(s, a))
  {
    if a != [] {
      OutsideTwice(s, w, a[1..]);
      if s.Has(a[0].priority) {
        assert Outside(s, a) == Outside(s, a[1..]);
        assert w.Has(a[0].priority);
      } else {
        assert Outside(s, a) == [a[0]] + Outside(s, a[1..]);
        assert Outside(s, a)[1..] == Outside(s, a[1..]);
      }
    }
  }

  lemma BlockInScope(cs: seq<Config>, c: Config, f: Family)
    requires c in cs && c.families.Has(f)
    ensures forall p | BlockOf(c).Has(p) :: Scope(cs, f).Has(p)
  {
    forall p | BlockOf(c).Has(p) ensures Scope(cs, f).Has(p) {
      ScopeHas(cs, f, p);
    }
  }

  /** Pruning that spares the guards keeps a guarded state guarded. */
  lemma PrunedGuarded(ch: Change, before: KernelState, k: KernelState, c: Config, f: Family)
    requires Guarded(ch, before) && c in ch.Configs() && c.families.Has(f)
    requires Pruned(before, k, f, BlockOf(c))
    requires forall g | g in ch.Guards(f) :: g in k.Rules(f)
    ensures Guarded(ch, k)
    ensures forall h: Family, x | x in k.Rules(h) :: x in before.Rules(h)
  {
    hide ShapedFor, Part, Outside, Scope, GuardSet, CompileRules;
    ShapedBoth(ch, before, f);
    BlockInScope(ch.Configs(), c, f);
    OutsideCoarser(BlockOf(c), ch.Owned(f), k.Rules(f), before.Rules(f));
    ShapedPart(ch, f, before.Rules(f), k.Rules(f));
    PartMembers(k.Rules(f), before.Rules(f));
    if f.V4? {
      assert k.Rules(V6) == before.Rules(V6);
    } else {
      assert k.Rules(V4) == before.Rules(V4);
    }
  }

  /******* Adding the wanted rules *******/

  ghost predicate GuardsFirst(ch: Change, k: KernelState) {
    forall f: Family, g | g in ch.Guards(f) && g in k.Rules(f) :: FirstBlock(k.Rules(f), g)
  }

  /** With only lookups beside them the guards come first among the unreachable rules. */
  lemma LookupsLast(ch: Change, k: KernelState)
    requires forall f: Family, g, x | g in ch.Guards(f) && x in k.Rules(f) && x.priority == g.priority && x != g ::
               x.action.Lookup?
    ensures GuardsFirst(ch, k)
  {
    forall f: Family, g | g in ch.Guards(f) && g in k.Rules(f) ensures FirstBlock(k.Rules(f), g) {
      LookupsOnly(k.Rules(f), g);
    }
  }

  lemma AddStep(ch: Change, k: KernelState, r: Rule)
    requires Starts(ch) && Guarded(ch, k) && GuardsFirst(ch, k) && r in ch.NextRules(r.family)
    ensures Guarded(ch, Added(k, r)) && GuardsFirst(ch, Added(k, r))
    ensures forall f: Family, x :: x in Added(k, r).Rules(f) <==> x in k.Rules(f) || (f == r.family && x == r)
  {
    hide Starts, Shaped, GuardsFirst;
    ShapedAdd(ch, k, r);
    AddFirst(ch, k, r);
    hide Sorted, NoDup, AddRule, GuardSet;
    AddFacts(k.Rules(r.family), r);
  }

  lemma AddFirst(ch: Change, k: KernelState, r: Rule)
    requires Shaped(ch, k) && GuardsIn(ch, k) && GuardsFirst(ch, k)
    ensures GuardsFirst(ch, Added(k, r))
  {
    hide GuardSet, FirstBlock;
    var f := r.family;
    ShapedBoth(ch, k, f);
    ShapedSorted(ch, f, k.Rules(f));
    hide Shaped, ShapedFor, AddRule;
    forall h: Family, g | g in ch.Guards(h) && g in Added(k, r).Rules(h) ensures FirstBlock(Added(k, r).Rules(h), g) {
      assert g in k.Rules(h) && FirstBlock(k.Rules(h), g);
      if h == f {
        FirstBlockAdd(k.Rules(f), r, g);
      }
    }
  }

  lemma ShapedSorted(ch: Change, f: Family, rs: seq<Rule>)
    requires ShapedFor(ch, f, rs)
    ensures Sorted(rs) && NoDup(rs)
  {
  }

  lemma FirstBlockAdd(rs: seq<Rule>, r: Rule, g: Rule)
    requires FirstBlock(rs, g) && Sorted(rs)
    ensures FirstBlock(AddRule(rs, r), g)
  {
    FirstBlockInsert(rs, r, g);
  }

  /******* Removing the guards *******/

  ghost predicate FinishingFor(ch: Change, f: Family, rs: seq<Rule>) {
    && Sorted(rs) && NoDup(rs)
    && Outside(ch.Owned(f), rs) == Outside(ch.Owned(f), ch.before.Rules(f))
    && (forall r | r in ch.NextRules(f) :: r in rs)
    && (forall r | r in rs && ch.Owned(f).Has(r.priority) :: r in ch.NextRules(f) || r in ch.Guards(f))
    && FirstOnes(ch, f, rs)
  }

  ghost predicate Finishing(ch: Change, k: KernelState) {
    FinishingFor(ch, V4, k.v4) && FinishingFor(ch, V6, k.v6) && SameTables(k.tables, NewTables(ch))
  }

  lemma FinishingRules(ch: Change, f: Family, rs: seq<Rule>)
    requires Starts(ch) && StartsFor(ch, f) && FinishingFor(ch, f, rs)
    ensures Without(Extra(ch, f, ch.NextRules(f)), rs) == NewRules(ch, f)
  {
    var s, extra := ch.Owned(f), Extra(ch, f, ch.NextRules(f));
    forall g | g in extra ensures s.Has(g.priority) {
      GuardFacts(ch, f, g);
    }
    forall r | r in ch.NextRules(f) ensures s.Has(r.priority) {
      RuleOwned(ch, f, r);
    }
    WithoutSorted(extra, rs);
    WithoutOutside(s, extra, rs);
    WithoutMembers(extra, rs);
    InsideIsExactly(s, Without(extra, rs), ch.NextRules(f), ch.next.config, f);
    NewRulesFacts(ch, f);
    PartsDetermine(s, Without(extra, rs), NewRules(ch, f));
  }

  lemma FinishingIsRemoving(ch: Change, k: KernelState)
    requires Starts(ch) && Finishing(ch, k)
    ensures Removing(ch, k)
  {
    FinishingRules(ch, V4, k.v4);
    FinishingRules(ch, V6, k.v6);
  }

  ghost predicate FirstOnes(ch: Change, f: Family, rs: seq<Rule>) {
    forall g | g in ch.Guards(f) && g in rs :: FirstBlock(rs, g)
  }

  lemma FinishList(ch: Change, f: Family, rs: seq<Rule>, g: Rule)
    requires NoDup(rs) && FirstOnes(ch, f, rs) && g in ch.Guards(f) && g in rs
    ensures forall x :: x in RemoveRule(rs, g) <==> x in rs && x != g
    ensures FirstOnes(ch, f, RemoveRule(rs, g))
  {
    RemoveFirstBlock(rs, g);
    forall h | h in ch.Guards(f) && h in RemoveRule(rs, g) ensures FirstBlock(RemoveRule(rs, g), h) {
      if h.priority == g.priority {
        GuardsByPriority(ch, f, h, g);
      }
      FirstBlockRemove(rs, g, h);
    }
  }

  lemma FinishFamily(ch: Change, f: Family, rs: seq<Rule>, g: Rule)
    requires Starts(ch) && FinishingFor(ch, f, rs)
    requires g in ch.Guards(f) && g !in ch.NextRules(f) && g in rs
    ensures FinishingFor(ch, f, RemoveRule(rs, g))
    ensures forall x :: x in RemoveRule(rs, g) <==> x in rs && x != g
  {
    GuardFacts(ch, f, g);
    FinishList(ch, f, rs, g);
    RemoveFacts(rs, g);
    OutsideRemove(ch.Owned(f), rs, g);
  }

  /** Removing a guard that is not itself a wanted rule. */
  lemma FinishStep(ch: Change, k: KernelState, g: Rule)
    requires Starts(ch) && Finishing(ch, k) && g in ch.Guards(g.family) && g !in ch.NextRules(g.family)
    requires g in k.Rules(g.family)
    ensures Finishing(ch, Removed(k, g))
    ensures forall f: Family, x :: x in Removed(k, g).Rules(f) <==> x in k.Rules(f) && (f != g.family || x != g)
  {
    hide FinishingFor, RemoveRule, NewTables;
    hide Starts;
    FinishFamily(ch, g.family, k.Rules(g.family), g);
  }

  /** With no superfluous guard left the rules are exactly the complete new ones. */
  lemma Finished(ch: Change, k: KernelState)
    requires Starts(ch) && Finishing(ch, k)
    requires forall f: Family, g | g in ch.Guards(f) && g in k.Rules(f) :: g in ch.NextRules(f)
    ensures k.v4 == NewRules(ch, V4) && k.v6 == NewRules(ch, V6)
  {
    FinishingRules(ch, V4, k.v4);
    FinishingRules(ch, V6, k.v6);
    assert forall g | g in k.Rules(V4) && g in ch.Guards(V4) :: g in ch.NextRules(V4);
    assert forall g | g in k.Rules(V6) && g in ch.Guards(V6) :: g in ch.NextRules(V6);
    WithoutNone(Extra(ch, V4, ch.NextRules(V4)), k.v4);
    WithoutNone(Extra(ch, V6, ch.NextRules(V6)), k.v6);
  }
}
