/** Every state the manager can leave the kernel in while it moves between two
    policies is safe. The three lemmas at the end cover the three stages of a move:
    guards going in, everything behind the guards, guards coming out. */
module Safety {
  import opened Netip
  import opened Policy
  import opened Kernel
  import opened Transition

  lemma {:induction false} InstallFrame(ts: Tables, rs: seq<Route>, id: TableId)
    requires forall r | r in rs :: IdOf(r) != id
    ensures TableOf(InstallAll(ts, rs), id) == TableOf(ts, id)
  {
    if rs != [] {
      assert rs[|rs| - 1] in rs;
      InstallFrame(ts, rs[..|rs| - 1], id);
    }
  }

  lemma NewTablesForeign(ch: Change)
    requires Starts(ch)
    ensures ForeignTablesKept(ch, NewTables(ch))
  {
    ConfigsValid(ch);
    forall id: TableId | !OwnedTable(ch.Configs(), id)
      ensures TableOf(NewTables(ch), id) == TableOf(ch.before.tables, id)
    {
      var flushed := Flushed(ch.Configs(), ch.before.tables);
      forall r | r in ch.next.vpnRoutes || r in ch.next.safeRoutes ensures IdOf(r) != id {
        assert OwnedTable(ch.Configs(), IdOf(r));
      }
      InstallFrame(flushed, ch.next.vpnRoutes, id);
      InstallFrame(InstallAll(flushed, ch.next.vpnRoutes), ch.next.safeRoutes, id);
    }
  }

  /** A family neither configuration covers keeps its decisions. */
  lemma UncoveredPacket(ch: Change, k: KernelState, f: Family, p: Packet)
    requires Starts(ch) && StartsFor(ch, f) && ShapedFor(ch, f, k.Rules(f)) && ForeignTablesKept(ch, k.tables)
    requires forall c | c in ch.Configs() :: !c.families.Has(f)
    ensures Eval(k.Rules(f), k.tables, p) == Eval(ch.before.Rules(f), ch.before.tables, p)
  {
    forall q: int ensures !ch.Owned(f).Has(q) {
      ScopeHas(ch.Configs(), f, q);
    }
    OutsideOfNothing(ch.Owned(f), k.Rules(f));
    OutsideOfNothing(ch.Owned(f), ch.before.Rules(f));
    ForeignEval(ch, f, k.Rules(f), k.tables, ch.before.tables, p);
  }

  /** Below the lowest block all three lists agree and decide alike. */
  lemma BelowAgrees(ch: Change, f: Family, rs: seq<Rule>, ts: Tables, lo: int, p: Packet)
    requires Starts(ch) && StartsFor(ch, f) && Sorted(rs) && ForeignTablesKept(ch, ts)
    requires Outside(ch.Owned(f), rs) == Outside(ch.Owned(f), ch.before.Rules(f))
    requires forall q | q < lo :: !ch.Owned(f).Has(q)
    ensures Eval(Below(rs, lo), ts, p) == Eval(Below(ch.before.Rules(f), lo), ch.before.tables, p)
  {
    SameBelow(ch, f, rs, lo);
    AboveMembers(ch.before.Rules(f), lo);
    ForeignEval(ch, f, Below(rs, lo), ts, ch.before.tables, p);
  }

  lemma MainDecidesAlike(ch: Change, x: Rule, ts: Tables, us: Tables, p: Packet)
    requires Starts(ch) && ForeignTablesKept(ch, ts) && ForeignTablesKept(ch, us)
    requires x.action.Lookup? && x.table == RT_TABLE_MAIN
    ensures Decide(x, ts, p) == Decide(x, us, p)
  {
    MainNotOwned(ch, x.family);
  }

  /** A lookup rule that can still act in front of the guard is a bypass rule. */
  lemma EarlyLookupIsBypass(ch: Change, f: Family, c: Config, x: Rule)
    requires Starts(ch) && Known(ch, f, x) && c in ch.Configs() && c.families.Has(f)
    requires forall d | d in ch.Configs() && d.families.Has(f) :: c.base <= d.base
    requires c.base <= x.priority <= c.base + OFFSET_TRANSITION_GUARD && x.action.Lookup?
    ensures x.table == RT_TABLE_MAIN
    ensures || (ch.prev.Some? && x == AppMain(ch.prev.value.config, f) && x in ch.PrevRules(f))
            || (x == AppMain(ch.next.config, f) && x in ch.NextRules(f))
            || (Stray(ch, f, x) && x.priority == c.base)
  {
    hide Starts, CompileRules, SourceRoutesOk, MarksOverlap, Scope;
    ConfigsValid(ch);
    if x in ch.Guards(f) {
      GuardFacts(ch, f, x);
    } else if x in ch.PrevRules(f) {
      CompiledRuleShape(ch.prev.value.config, f);
    } else if x in ch.NextRules(f) {
      CompiledRuleShape(ch.next.config, f);
    }
  }

  /** Two lookups of the main table never disagree. */
  lemma MainsAgree(x: Rule, y: Rule, ts: Tables, p: Packet)
    requires x.action.Lookup? && y.action.Lookup? && x.table == y.table && x.family == y.family
    requires Decide(x, ts, p) != NoRoute
    ensures Decide(y, ts, p) == NoRoute || Decide(y, ts, p) == Decide(x, ts, p)
  {
  }

  /** What can come before a bypass rule of the old kernel: a lookup of main as well, or the
      unreachable rule of the new policy for its own mark. */
  lemma EarlierRule(ch: Change, f: Family, c: Config, x: Rule, y: Rule)
    requires Starts(ch) && c in ch.Configs() && c.families.Has(f)
    requires forall d | d in ch.Configs() && d.families.Has(f) :: c.base <= d.base
    requires || (ch.prev.Some? && x == AppMain(ch.prev.value.config, f) && x in ch.PrevRules(f))
             || (Stray(ch, f, x) && x.priority == c.base)
    requires c.base <= x.priority <= c.base + OFFSET_TRANSITION_GUARD
    requires Known(ch, f, y) && c.base <= y.priority <= x.priority && y != x
    requires y in ch.Guards(f) ==> y.priority < x.priority || x !in ch.PrevRules(f)
    ensures || (y.action.Lookup? && y.table == RT_TABLE_MAIN)
            || (y == AppUnreachable(ch.next.config, f) && ch.next.config.families.Has(f)
                && ch.next.config.base <= x.priority)
  {
    hide Starts, CompileRules, SourceRoutesOk, MarksOverlap, Scope;
    ConfigsValid(ch);
    if y in ch.Guards(f) {
    } else if y in ch.PrevRules(f) {
      CompiledRuleShape(ch.prev.value.config, f);
      assert ch.prev.value.config.families.Has(f);
    } else if y in ch.NextRules(f) {
      CompiledRuleShape(ch.next.config, f);
      assert ch.next.config.families.Has(f);
    } else {
      assert Stray(ch, f, y);
      assert x.priority == c.base;
    }
  }

  /** Bypass in front of the guard, through a rule that was there: as before, or as after
      where the new policy's own mark is meant. */
  lemma BypassAsBefore(ch: Change, k: KernelState, f: Family, c: Config, x: Rule, p: Packet)
    requires Starts(ch) && StartsFor(ch, f) && ShapedFor(ch, f, k.Rules(f)) && ForeignTablesKept(ch, k.tables)
    requires c in ch.Configs() && c.families.Has(f) && c.span >= DEFAULT_PRIORITY_SPAN
    requires forall d | d in ch.Configs() && d.families.Has(f) :: c.base <= d.base
    requires forall q | q < c.base :: !ch.Owned(f).Has(q)
    requires forall q | c.base <= q < c.base + c.span :: ch.Owned(f).Has(q)
    requires x in ch.before.Rules(f) && c.base <= x.priority <= c.base + OFFSET_TRANSITION_GUARD
    requires x.action.Lookup? && x.table == RT_TABLE_MAIN && x.family == f
    requires || (ch.prev.Some? && x == AppMain(ch.prev.value.config, f) && x in ch.PrevRules(f))
             || (Stray(ch, f, x) && x.priority == c.base)
    requires Eval(Below(k.Rules(f), c.base), k.tables, p) == NoRoute && Decide(x, k.tables, p) != NoRoute
    ensures || Eval(ch.before.Rules(f), ch.before.tables, p) == Decide(x, k.tables, p)
            || Eval(NewRules(ch, f), NewTables(ch), p) == Decide(x, k.tables, p)
  {
    var n := AppMain(ch.next.config, f);
    if n in ch.NextRules(f) && ch.next.config.base <= c.base + OFFSET_TRANSITION_GUARD
       && Decide(n, k.tables, p) != NoRoute {
      MainsAgree(x, n, k.tables, p);
      BypassAsAfter(ch, k, f, c, p);
    } else {
      BelowAgrees(ch, f, k.Rules(f), k.tables, c.base, p);
      MainDecidesAlike(ch, x, k.tables, ch.before.tables, p);
      ReachedBefore(ch, k, f, c, x, p);
    }
  }

  lemma ReachedBefore(ch: Change, k: KernelState, f: Family, c: Config, x: Rule, p: Packet)
    requires Starts(ch) && StartsFor(ch, f) && ForeignTablesKept(ch, k.tables)
    requires c in ch.Configs() && c.families.Has(f) && c.span >= DEFAULT_PRIORITY_SPAN
    requires forall d | d in ch.Configs() && d.families.Has(f) :: c.base <= d.base
    requires forall q | c.base <= q < c.base + c.span :: ch.Owned(f).Has(q)
    requires x in ch.before.Rules(f) && c.base <= x.priority <= c.base + OFFSET_TRANSITION_GUARD
    requires x.action.Lookup? && x.table == RT_TABLE_MAIN && x.family == f
    requires || (ch.prev.Some? && x == AppMain(ch.prev.value.config, f) && x in ch.PrevRules(f))
             || (Stray(ch, f, x) && x.priority == c.base)
    requires !(AppMain(ch.next.config, f) in ch.NextRules(f) && ch.next.config.base <= c.base + OFFSET_TRANSITION_GUARD
               && Decide(AppMain(ch.next.config, f), k.tables, p) != NoRoute)
    requires Decide(x, ch.before.tables, p) == Decide(x, k.tables, p) != NoRoute
    requires Eval(Below(ch.before.Rules(f), c.base), ch.before.tables, p) == NoRoute
    ensures Eval(ch.before.Rules(f), ch.before.tables, p) == Decide(x, ch.before.tables, p)
  {
    var rs, ts, lo := ch.before.Rules(f), ch.before.tables, c.base;
    AboveFacts(rs, lo);
    AboveMembers(rs, lo);
    EvalSplit(rs, lo, ts, p);
    forall y | y in Above(rs, lo) && MayPrecede(Above(rs, lo), y, x)
      ensures Decide(y, ts, p) == NoRoute || Decide(y, ts, p) == Decide(x, ts, p)
    {
      assert y in rs && ch.Owned(f).Has(y.priority) && Known(ch, f, y);
      if y in ch.Guards(f) && y.priority == x.priority && x in ch.PrevRules(f) {
        assert FirstAt(rs, x);
        FirstAtAbove(rs, lo, x);
        assert false;
      }
      EarlierRule(ch, f, c, x, y);
      if y.action.Lookup? {
        MainsAgree(x, y, ts, p);
      } else {
        OtherMark(ch, f, c, x, y, k.tables, ts, p);
      }
    }
    hide Starts, StartsFor, Eval, Decide, Above, Below;
    ReachedDecides(Above(rs, lo), x, ts, p);
  }

  /** The new policy's unreachable rule does not concern a packet without its mark. */
  lemma OtherMark(ch: Change, f: Family, c: Config, x: Rule, y: Rule, ks: Tables, ts: Tables, p: Packet)
    requires Starts(ch) && y == AppUnreachable(ch.next.config, f) && ch.next.config.families.Has(f)
    requires ch.next.config.base <= x.priority <= c.base + OFFSET_TRANSITION_GUARD
    requires x.action.Lookup? && x.table == RT_TABLE_MAIN && x.family == f && Decide(x, ks, p) != NoRoute
    requires !(AppMain(ch.next.config, f) in ch.NextRules(f) && ch.next.config.base <= c.base + OFFSET_TRANSITION_GUARD
               && Decide(AppMain(ch.next.config, f), ks, p) != NoRoute)
    ensures Decide(y, ts, p) == NoRoute
  {
    assert CompileRules(ch.next.config, f)[0] == AppMain(ch.next.config, f);
    assert AppMain(ch.next.config, f) in ch.NextRules(f);
  }

  lemma NewRulesBlock(ch: Change, f: Family, rs: seq<Rule>)
    requires Starts(ch) && StartsFor(ch, f) && rs == NewRules(ch, f)
    ensures Sorted(rs)
    ensures Outside(ch.Owned(f), rs) == Outside(ch.Owned(f), ch.before.Rules(f))
    ensures forall r | r in rs && ch.Owned(f).Has(r.priority) :: r in CompileRules(ch.next.config, f)
    ensures forall r | r in ch.NextRules(f) :: r in rs
  {
    NewRulesFacts(ch, f);
  }

  lemma BypassAsAfter(ch: Change, k: KernelState, f: Family, c: Config, p: Packet)
    requires Starts(ch) && StartsFor(ch, f) && ShapedFor(ch, f, k.Rules(f)) && ForeignTablesKept(ch, k.tables)
    requires c in ch.Configs() && c.span >= DEFAULT_PRIORITY_SPAN
    requires forall q | q < c.base :: !ch.Owned(f).Has(q)
    requires forall q | c.base <= q < c.base + c.span :: ch.Owned(f).Has(q)
    requires AppMain(ch.next.config, f) in ch.NextRules(f)
    requires c.base <= ch.next.config.base <= c.base + OFFSET_TRANSITION_GUARD
    requires Eval(Below(k.Rules(f), c.base), k.tables, p) == NoRoute
    requires Decide(AppMain(ch.next.config, f), k.tables, p) != NoRoute
    ensures Eval(NewRules(ch, f), NewTables(ch), p) == Decide(AppMain(ch.next.config, f), k.tables, p)
  {
    hide Starts, StartsFor, CompileRules, Eval, Decide, Below, NewRules, NewTables, Scope;
    var rs, ts := NewRules(ch, f), NewTables(ch);
    NewTablesForeign(ch);
    NewRulesBlock(ch, f, rs);
    BelowAgrees(ch, f, k.Rules(f), k.tables, c.base, p);
    BelowAgrees(ch, f, rs, ts, c.base, p);
    MainDecidesAlike(ch, AppMain(ch.next.config, f), k.tables, ts, p);
    AppRuleDecides(ch, f, rs, ch.next.config, c.base, ts, p);
  }

  /** Below the lowest block decides: all three states agree. */
  lemma DecidedBelow(ch: Change, k: KernelState, f: Family, lo: int, p: Packet)
    requires Starts(ch) && StartsFor(ch, f) && ShapedFor(ch, f, k.Rules(f)) && ForeignTablesKept(ch, k.tables)
    requires forall q | q < lo :: !ch.Owned(f).Has(q)
    requires Eval(Below(k.Rules(f), lo), k.tables, p) != NoRoute
    ensures Eval(k.Rules(f), k.tables, p) == Eval(ch.before.Rules(f), ch.before.tables, p)
  {
    BelowAgrees(ch, f, k.Rules(f), k.tables, lo, p);
    EvalSplit(k.Rules(f), lo, k.tables, p);
    EvalSplit(ch.before.Rules(f), lo, ch.before.tables, p);
  }

  lemma CoveredPacket(ch: Change, k: KernelState, f: Family, c: Config, p: Packet)
    requires Starts(ch) && StartsFor(ch, f) && ShapedFor(ch, f, k.Rules(f)) && ForeignTablesKept(ch, k.tables)
    requires forall g | g in ch.Guards(f) :: g in k.Rules(f)
    requires c in ch.Configs() && c.families.Has(f) && c.span >= DEFAULT_PRIORITY_SPAN
    requires forall d | d in ch.Configs() && d.families.Has(f) :: c.base <= d.base
    requires forall q | q < c.base :: !ch.Owned(f).Has(q)
    requires forall q | c.base <= q < c.base + c.span :: ch.Owned(f).Has(q)
    ensures || Eval(k.Rules(f), k.tables, p) == Blocked
            || Eval(k.Rules(f), k.tables, p) == Eval(ch.before.Rules(f), ch.before.tables, p)
            || Eval(k.Rules(f), k.tables, p) == Eval(NewRules(ch, f), NewTables(ch), p)
  {
    var rs, lo := k.Rules(f), c.base;
    if Eval(Below(rs, lo), k.tables, p) != NoRoute {
      DecidedBelow(ch, k, f, lo, p);
    } else {
      EvalSplit(rs, lo, k.tables, p);
      AboveFacts(rs, lo);
      AboveMembers(rs, lo);
      var g := TransitionGuard(c, f);
      assert g in ch.Guards(f);
      assert g in Above(rs, lo);
      BlockedOrEarlier(Above(rs, lo), g, k.tables, p);
      if Eval(rs, k.tables, p) != Blocked {
        var x :| && x in Above(rs, lo) && x.priority <= g.priority && x.action.Lookup?
                 && Decide(x, k.tables, p) != NoRoute && Eval(Above(rs, lo), k.tables, p) == Decide(x, k.tables, p);
        EarlyDecides(ch, k, f, c, x, p);
      }
    }
  }

  /** A lookup rule in front of the lowest guard decides as before or as after. */
  lemma EarlyDecides(ch: Change, k: KernelState, f: Family, c: Config, x: Rule, p: Packet)
    requires Starts(ch) && StartsFor(ch, f) && ShapedFor(ch, f, k.Rules(f)) && ForeignTablesKept(ch, k.tables)
    requires c in ch.Configs() && c.families.Has(f) && c.span >= DEFAULT_PRIORITY_SPAN
    requires forall d | d in ch.Configs() && d.families.Has(f) :: c.base <= d.base
    requires forall q | q < c.base :: !ch.Owned(f).Has(q)
    requires forall q | c.base <= q < c.base + c.span :: ch.Owned(f).Has(q)
    requires x in k.Rules(f) && c.base <= x.priority <= c.base + OFFSET_TRANSITION_GUARD && x.action.Lookup?
    requires Eval(Below(k.Rules(f), c.base), k.tables, p) == NoRoute && Decide(x, k.tables, p) != NoRoute
    ensures || Decide(x, k.tables, p) == Eval(ch.before.Rules(f), ch.before.tables, p)
            || Decide(x, k.tables, p) == Eval(NewRules(ch, f), NewTables(ch), p)
  {
    hide Starts, StartsFor, CompileRules, Eval, Decide, Below, NewRules, NewTables, Scope, Known, Stray, FirstAt;
    hide GuardSet;
    assert ch.Owned(f).Has(x.priority);
    ShapedKnown(ch, f, k.Rules(f), x);
    EarlyLookupIsBypass(ch, f, c, x);
    if x == AppMain(ch.next.config, f) && x in ch.NextRules(f) {
      BypassAsAfter(ch, k, f, c, p);
    } else {
      if x in ch.Guards(f) {
        GuardFacts(ch, f, x);
      }
      if x in ch.NextRules(f) {
        EarlyNext(ch, f, c, x);
      }
      BypassAsBefore(ch, k, f, c, x, p);
    }
  }

  lemma EarlyNext(ch: Change, f: Family, c: Config, x: Rule)
    requires forall d | d in ch.Configs() && d.families.Has(f) :: c.base <= d.base
    requires x.priority <= c.base + OFFSET_TRANSITION_GUARD && x.action.Lookup? && x in ch.NextRules(f)
    ensures x == AppMain(ch.next.config, f)
  {
    CompiledRuleShape(ch.next.config, f);
    assert ch.next.config in ch.Configs();
  }

  lemma StartsBoth(ch: Change, f: Family)
    requires Starts(ch)
    ensures StartsFor(ch, f)
  {
    if f.V4? { } else { }
  }

  lemma ShapedBoth(ch: Change, k: KernelState, f: Family)
    requires Shaped(ch, k)
    ensures ShapedFor(ch, f, k.Rules(f))
  {
    if f.V4? { } else { }
  }

  lemma GuardedPacket(ch: Change, k: KernelState, f: Family, p: Packet)
    requires Starts(ch) && Guarded(ch, k)
    ensures || Eval(k.Rules(f), k.tables, p) == Blocked
            || Eval(k.Rules(f), k.tables, p) == Eval(ch.before.Rules(f), ch.before.tables, p)
            || Eval(k.Rules(f), k.tables, p) == Eval(NewRules(ch, f), NewTables(ch), p)
  {
    StartsBoth(ch, f);
    ShapedBoth(ch, k, f);
    if exists c :: c in ch.Configs() && c.families.Has(f) {
      ConfigsValid(ch);
      var c := LowestConfig(ch, f);
      CoveredPacket(ch, k, f, c, p);
    } else {
      UncoveredPacket(ch, k, f, p);
    }
  }

  /******* The three stages *******/

  /** Once every guard is in, whatever happens behind the guards is safe. */
  lemma GuardedIsSafe(ch: Change, k: KernelState)
    requires Starts(ch) && Guarded(ch, k)
    ensures Safe(ch, k)
  {
    forall p: Packet
      ensures || k.Route(p) == Blocked
              || k.Route(p) == ch.before.Route(p)
              || k.Route(p) == NewKernel(ch).Route(p)
    {
      GuardedPacket(ch, k, FamilyOf(p.dst), p);
    }
  }

  /** The guards that the list did not already hold. */
  ghost function Extra(ch: Change, f: Family, rs: seq<Rule>): set<Rule> {
    set g | g in ch.Guards(f) && g !in rs
  }

  /** Guards are going in; nothing else has changed. */
  ghost predicate Installing(ch: Change, k: KernelState) {
    && Shaped(ch, k) && k.tables == ch.before.tables
    && Without(Extra(ch, V4, ch.before.v4), k.v4) == ch.before.v4
    && Without(Extra(ch, V6, ch.before.v6), k.v6) == ch.before.v6
  }

  /** Every packet is unreachable or decided as before. */
  ghost predicate BlockedOrAs(before: KernelState, k: KernelState) {
    forall p: Packet :: k.Route(p) == Blocked || k.Route(p) == before.Route(p)
  }

  lemma InstallingIsSafe(ch: Change, k: KernelState)
    requires Starts(ch) && Installing(ch, k)
    ensures BlockedOrAs(ch.before, k)
  {
    forall f: Family, g | g in ch.Guards(f) ensures CatchAll(g) {
      GuardFacts(ch, f, g);
    }
    forall p: Packet
      ensures k.Route(p) == Blocked || k.Route(p) == ch.before.Route(p)
    {
      var f := FamilyOf(p.dst);
      CatchAllOnlyBlocks(Extra(ch, f, ch.before.Rules(f)), k.Rules(f), k.tables, p);
    }
  }

  ghost predicate SameTables(ts: Tables, us: Tables) {
    forall id: TableId :: TableOf(ts, id) == TableOf(us, id)
  }

  /** Guards are coming out; everything else is as wanted. */
  ghost predicate Removing(ch: Change, k: KernelState) {
    && SameTables(k.tables, NewTables(ch))
    && Without(Extra(ch, V4, ch.NextRules(V4)), k.v4) == NewRules(ch, V4)
    && Without(Extra(ch, V6, ch.NextRules(V6)), k.v6) == NewRules(ch, V6)
  }

  lemma RemovingIsSafe(ch: Change, k: KernelState)
    requires Starts(ch) && Removing(ch, k)
    ensures Safe(ch, k)
  {
    forall f: Family, g | g in ch.Guards(f) ensures CatchAll(g) {
      GuardFacts(ch, f, g);
    }
    forall p: Packet
      ensures k.Route(p) == Blocked || k.Route(p) == NewKernel(ch).Route(p)
    {
      var f := FamilyOf(p.dst);
      CatchAllOnlyBlocks(Extra(ch, f, ch.NextRules(f)), k.Rules(f), k.tables, p);
      EvalFrame(NewRules(ch, f), k.tables, NewTables(ch), p);
    }
  }
}
