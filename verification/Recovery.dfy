/** Recovering from a failed update: Apply of the new policy fails somewhere, Rollback
    clears both scopes, and Apply of the old policy brings it back. */
module Recovery {
  import opened Netip
  import opened Policy
  import opened Kernel
  import opened Transition
  import opened Safety
  import opened Steps
  import opened Adapters
  import opened Managers
  import opened Stages
  import opened Reconciler
  import opened RoutingManager
  import opened Attempts
  import opened Contents

  /******* After a rollback any of its policies may be applied *******/

  lemma ScopeOfOne(cs: seq<Config>, c: Config, f: Family, p: int)
    requires c in cs && Scope([c], f).Has(p)
    ensures Scope(cs, f).Has(p)
  {
    ScopeHas([c], f, p);
    ScopeHas(cs, f, p);
  }

  lemma ClearedRule(cs: seq<Config>, before: KernelState, k: KernelState, f: Family, r: Rule)
    requires OwnedEmpty(cs, k) && ForeignKept(cs, before, k) && r in k.Rules(f)
    ensures !Scope(cs, f).Has(r.priority) && r in before.Rules(f)
  {
    var s := Scope(cs, f);
    SplitMembers(s, k.Rules(f));
    SplitMembers(s, before.Rules(f));
    assert Inside(s, k.Rules(f)) == [];
    assert r !in Inside(s, k.Rules(f));
    assert r in Outside(s, k.Rules(f));
  }

  lemma ClearedRules(ch: Change, k: KernelState, c: Config, f: Family, r: Rule)
    requires Starts(ch) && c in ch.Configs() && OwnedEmpty(ch.Configs(), k) && ForeignKept(ch.Configs(), ch.before, k)
    requires r in k.Rules(f)
    ensures !Scope([c], f).Has(r.priority)
    ensures r.action.Lookup? ==> !OwnedTable([c], TableId(f, r.table))
  {
    StartsBoth(ch, f);
    hide Starts, OwnedEmpty, ForeignKept, Scope;
    ClearedRule(ch.Configs(), ch.before, k, f, r);
    if Scope([c], f).Has(r.priority) {
      ScopeOfOne(ch.Configs(), c, f, r.priority);
    }
  }

  lemma FreshStartsFor(k: KernelState, d: DesiredState, f: Family)
    requires Tidy(k)
    requires forall r | r in k.Rules(f) ::
               !Scope([d.config], f).Has(r.priority)
               && (r.action.Lookup? ==> !OwnedTable([d.config], TableId(f, r.table)))
    ensures StartsFor(Change(k, None, d), f)
  {
    hide Scope, Kernel.Sorted, NoDup, OwnedTable;
    assert Change(k, None, d).Configs() == [d.config];
  }

  lemma ClearedStartsFor(ch: Change, k: KernelState, c: Config, f: Family)
    requires Starts(ch) && c in ch.Configs() && Tidy(k)
    requires OwnedEmpty(ch.Configs(), k) && ForeignKept(ch.Configs(), ch.before, k)
    ensures StartsFor(Attempt(k, None, c, []), f)
  {
    hide Starts, Desired, OwnedEmpty, ForeignKept, Scope, Tidy, StartsFor, OwnedTable;
    DesiredConfig(c, []);
    forall r | r in k.Rules(f)
      ensures !Scope([c], f).Has(r.priority) && (r.action.Lookup? ==> !OwnedTable([c], TableId(f, r.table)))
    {
      ClearedRules(ch, k, c, f, r);
    }
    FreshStartsFor(k, Desired(c, []), f);
  }

  /** The kernel that a complete rollback leaves is one from which each of the two
      policies may be applied afresh. */
  lemma ClearedStarts(ch: Change, k: KernelState, c: Config)
    requires Starts(ch) && c in ch.Configs() && Tidy(k)
    requires OwnedEmpty(ch.Configs(), k) && ForeignKept(ch.Configs(), ch.before, k)
    ensures Starts(Attempt(k, None, c, []))
  {
    ConfigsValid(ch);
    hide Starts, StartsFor, WellCompiled, Desired, OwnedEmpty, ForeignKept, Tidy, Policy.Valid;
    DesiredWellCompiled(c, []);
    ClearedStartsFor(ch, k, c, V4);
    ClearedStartsFor(ch, k, c, V6);
    StartsFresh(Attempt(k, None, c, []));
  }

  lemma StartsFresh(ch: Change)
    requires WellCompiled(ch.next) && ch.prev.None? && StartsFor(ch, V4) && StartsFor(ch, V6)
    ensures Starts(ch)
  {
  }

  /******* What is brought back is what was there *******/

  /** Inside the blocks of a change there is exactly the old policy. */
  ghost predicate OldExactly(ch: Change) {
    forall f: Family, r: Rule | ch.Owned(f).Has(r.priority) :: r in ch.before.Rules(f) <==> r in ch.PrevRules(f)
  }

  lemma OldInside(ch: Change, f: Family)
    requires Starts(ch) && ch.prev.Some? && OldExactly(ch)
    ensures Inside(ch.Owned(f), ch.before.Rules(f)) == ch.PrevRules(f)
  {
    StartsBoth(ch, f);
    forall r ensures r in ch.before.Rules(f) && ch.Owned(f).Has(r.priority) <==> r in ch.PrevRules(f) {
      if r in ch.PrevRules(f) {
        RuleOwned(ch, f, r);
      }
    }
    hide Starts, CompileRules, Scope;
    InsideIsExactly(ch.Owned(f), ch.before.Rules(f), ch.PrevRules(f), ch.prev.value.config, f);
  }

  /** The kernel `k` after the rollback and the kernel `l` after the old policy was applied again. */
  ghost predicate BroughtBack(ch: Change, k: KernelState, main: seq<Route>, l: KernelState) {
    && Starts(ch) && ch.prev.Some? && Tidy(k)
    && OwnedEmpty(ch.Configs(), k) && ForeignKept(ch.Configs(), ch.before, k)
    && Starts(Attempt(k, None, ch.prev.value.config, main))
    && Complete(Attempt(k, None, ch.prev.value.config, main), l)
  }

  lemma NewInside(ch: Change, k: KernelState, main: seq<Route>, l: KernelState, f: Family)
    requires BroughtBack(ch, k, main, l)
    ensures Kernel.Sorted(l.Rules(f))
    ensures Inside(ch.Owned(f), l.Rules(f)) == ch.PrevRules(f)
    ensures Outside(ch.Owned(f), l.Rules(f)) == Outside(ch.Owned(f), ch.before.Rules(f))
  {
    var c := ch.prev.value.config;
    var dh := Attempt(k, None, c, main);
    DesiredConfig(c, main);
    assert dh.Configs() == [c] && c in ch.Configs();
    StartsBoth(dh, f);
    NewRulesFacts(dh, f);
    assert l.Rules(f) == NewRules(dh, f) && dh.NextRules(f) == ch.PrevRules(f);
    hide Complete, Desired, NewRules, CompileRules, Scope;
    forall r ensures r in l.Rules(f) && ch.Owned(f).Has(r.priority) <==> r in ch.PrevRules(f) {
      if r in ch.PrevRules(f) {
        RuleOwned(ch, f, r);
      } else if r in k.Rules(f) {
        ClearedRule(ch.Configs(), ch.before, k, f, r);
      }
    }
    InsideIsExactly(ch.Owned(f), l.Rules(f), ch.PrevRules(f), c, f);
    forall p | dh.Owned(f).Has(p) ensures ch.Owned(f).Has(p) {
      ScopeOfOne(ch.Configs(), c, f, p);
    }
    OutsideCoarser(dh.Owned(f), ch.Owned(f), l.Rules(f), k.Rules(f));
  }

  /** The rule lists are those of before, rule by rule. */
  lemma RulesRestored(ch: Change, k: KernelState, main: seq<Route>, l: KernelState, f: Family)
    requires BroughtBack(ch, k, main, l) && OldExactly(ch)
    ensures l.Rules(f) == ch.before.Rules(f)
  {
    NewInside(ch, k, main, l, f);
    OldInside(ch, f);
    StartsBoth(ch, f);
    hide BroughtBack, Starts, Inside, Outside, Scope, CompileRules;
    PartsDetermine(ch.Owned(f), l.Rules(f), ch.before.Rules(f));
  }

  /** Two readings of the same main table have the same routes. */
  lemma SameSnapshot(a: KernelState, b: KernelState, fs: seq<Family>, m: seq<Route>, n: seq<Route>)
    requires IsSnapshot(a, fs, m) && IsSnapshot(b, fs, n)
    requires forall f: Family ::
              TableOf(a.tables, TableId(f, RT_TABLE_MAIN)) == TableOf(b.tables, TableId(f, RT_TABLE_MAIN))
    ensures forall r :: r in m <==> r in n
  {
    assert forall f: Family, key :: InMain(a, f, key) <==> InMain(b, f, key);
  }

  lemma SnapshotKeys(k: KernelState, fs: seq<Family>, main: seq<Route>, x: Route, y: Route)
    requires TablesWf(k.tables) && IsSnapshot(k, fs, main) && x in main && y in main
    requires x.family == y.family && KeyOf(x) == KeyOf(y)
    ensures x == y
  {
    var f, key :| InMain(k, f, key) && f in fs && x == TableOf(k.tables, TableId(f, RT_TABLE_MAIN))[key];
    var g, other :| InMain(k, g, other) && g in fs && y == TableOf(k.tables, TableId(g, RT_TABLE_MAIN))[other];
  }

  /** `t` holds exactly copies of the safe routes of `main` in one family. */
  ghost predicate HoldsSafeRoutes(c: Config, main: seq<Route>, f: Family, t: RouteTable) {
    && (forall key | key in t :: exists m :: CopyOf(c, main, f, m, key) && t[key] == SafeTableRoute(m, c.safeTable))
    && (forall m | m in main && m.family == f && Replayed(c, m) :: KeyOf(m) in t)
  }

  predicate CopyOf(c: Config, main: seq<Route>, f: Family, m: Route, key: RouteKey) {
    m in main && m.family == f && Replayed(c, m) && KeyOf(m) == key
  }

  lemma SafeTableHolds(c: Config, main: seq<Route>, ts: Tables, f: Family)
    requires Policy.Valid(c) && c.families.Has(f) && TablesMatch(ts, Desired(c, main))
    ensures HoldsSafeRoutes(c, main, f, TableOf(ts, TableId(f, c.safeTable)))
  {
    SafeTable(c, main, ts, f);
    hide Policy.Valid, TablesMatch, Desired, Replayed, SafeTableRoute;
    var t := TableOf(ts, TableId(f, c.safeTable));
    forall key | key in t ensures exists m :: CopyOf(c, main, f, m, key) && t[key] == SafeTableRoute(m, c.safeTable) {
      var m :| && m in main && m.family == f && Replayed(c, m) && KeyOf(m) == key
               && t[key] == SafeTableRoute(m, c.safeTable);
      assert CopyOf(c, main, f, m, key);
    }
  }

  lemma SafeRoutesWithin(c: Config, k: KernelState, m: seq<Route>, n: seq<Route>, f: Family, t: RouteTable,
                         u: RouteTable)
    requires TablesWf(k.tables) && IsSnapshot(k, c.families.ToSeq(), m) && (forall r :: r in m <==> r in n)
    requires HoldsSafeRoutes(c, m, f, t) && HoldsSafeRoutes(c, n, f, u)
    ensures forall key | key in t :: key in u && t[key] == u[key]
  {
    hide IsSnapshot, TablesWf, Replayed, SafeTableRoute;
    forall key | key in t ensures key in u && t[key] == u[key] {
      var x :| CopyOf(c, m, f, x, key) && t[key] == SafeTableRoute(x, c.safeTable);
      assert key in u;
      var y :| CopyOf(c, n, f, y, key) && u[key] == SafeTableRoute(y, c.safeTable);
      SnapshotKeys(k, c.families.ToSeq(), m, x, y);
    }
  }

  /** The safe table depends only on which routes the main table holds. */
  lemma SafeTableSame(c: Config, a: KernelState, b: KernelState, m: seq<Route>, n: seq<Route>, ts: Tables, us: Tables,
                      f: Family)
    requires Policy.Valid(c) && c.families.Has(f) && TablesWf(a.tables) && TablesWf(b.tables)
    requires IsSnapshot(a, c.families.ToSeq(), m) && IsSnapshot(b, c.families.ToSeq(), n)
             && (forall r :: r in m <==> r in n)
    requires TablesMatch(ts, Desired(c, m)) && TablesMatch(us, Desired(c, n))
    ensures TableOf(ts, TableId(f, c.safeTable)) == TableOf(us, TableId(f, c.safeTable))
  {
    hide TablesMatch, Desired, Policy.Valid, IsSnapshot, HoldsSafeRoutes, TablesWf;
    SafeTableHolds(c, m, ts, f);
    SafeTableHolds(c, n, us, f);
    SafeRoutesWithin(c, a, m, n, f, TableOf(ts, TableId(f, c.safeTable)), TableOf(us, TableId(f, c.safeTable)));
    SafeRoutesWithin(c, b, n, m, f, TableOf(us, TableId(f, c.safeTable)), TableOf(ts, TableId(f, c.safeTable)));
  }

  lemma VpnTableSame(c: Config, m: seq<Route>, n: seq<Route>, ts: Tables, us: Tables, f: Family)
    requires Policy.Valid(c) && c.families.Has(f)
    requires TablesMatch(ts, Desired(c, m)) && TablesMatch(us, Desired(c, n))
    ensures TableOf(ts, TableId(f, c.vpnTable)) == TableOf(us, TableId(f, c.vpnTable))
  {
    DesiredWellCompiled(c, m);
    DesiredWellCompiled(c, n);
    DesiredVpnSame(c, m, n);
    hide TablesMatch, Desired, Policy.Valid, WellCompiled;
    DesiredConfig(c, n);
    TablesMatchVpn(ts, Desired(c, m));
    TablesMatchVpn(us, Desired(c, n));
    assert OwnedTable([c], TableId(f, c.vpnTable));
  }

  /** The old state was complete: in the blocks its rules, and in its tables what it compiled
      to from the main table as it still is. */
  ghost predicate WasComplete(ch: Change, main: seq<Route>) {
    && ch.prev.Some? && OldExactly(ch)
    && var d := ch.prev.value;
    && d == Desired(d.config, main) && IsSnapshot(ch.before, d.config.families.ToSeq(), main)
    && TablesWf(ch.before.tables) && TablesMatch(ch.before.tables, d)
  }

  lemma ForeignTableRestored(ch: Change, k: KernelState, main: seq<Route>, l: KernelState, id: TableId)
    requires BroughtBack(ch, k, main, l) && !OwnedTable(ch.Configs(), id)
    ensures TableOf(l.tables, id) == TableOf(ch.before.tables, id)
  {
    var c := ch.prev.value.config;
    var dh := Attempt(k, None, c, main);
    DesiredConfig(c, main);
    assert dh.Configs() == [c] && c in ch.Configs();
    NewTablesForeign(dh);
    assert !OwnedTable([c], id);
    hide Starts, NewTables, Desired;
  }

  lemma MainRestored(ch: Change, k: KernelState, f: Family)
    requires Starts(ch) && ForeignKept(ch.Configs(), ch.before, k)
    ensures TableOf(k.tables, TableId(f, RT_TABLE_MAIN)) == TableOf(ch.before.tables, TableId(f, RT_TABLE_MAIN))
  {
    MainNotOwned(ch, f);
  }

  lemma MainUnchanged(ch: Change, k: KernelState, main0: seq<Route>, main: seq<Route>)
    requires Starts(ch) && ForeignKept(ch.Configs(), ch.before, k) && ch.prev.Some?
    requires IsSnapshot(ch.before, ch.prev.value.config.families.ToSeq(), main0)
    requires IsSnapshot(k, ch.prev.value.config.families.ToSeq(), main)
    ensures forall r :: r in main0 <==> r in main
  {
    hide Starts, ForeignKept, IsSnapshot;
    forall h: Family
      ensures TableOf(k.tables, TableId(h, RT_TABLE_MAIN)) == TableOf(ch.before.tables, TableId(h, RT_TABLE_MAIN))
    {
      MainRestored(ch, k, h);
    }
    SameSnapshot(ch.before, k, ch.prev.value.config.families.ToSeq(), main0, main);
  }

  lemma BackMatches(ch: Change, k: KernelState, main: seq<Route>, l: KernelState)
    requires BroughtBack(ch, k, main, l)
    ensures Starts(ch) && ForeignKept(ch.Configs(), ch.before, k) && Policy.Valid(ch.prev.value.config)
    ensures TablesMatch(l.tables, Desired(ch.prev.value.config, main))
  {
    ConfigsValid(ch);
    DesiredConfig(ch.prev.value.config, main);
    NewTablesMatch(Attempt(k, None, ch.prev.value.config, main), l.tables);
  }

  lemma WasParts(ch: Change, main: seq<Route>)
    requires WasComplete(ch, main)
    ensures TablesMatch(ch.before.tables, Desired(ch.prev.value.config, main))
    ensures IsSnapshot(ch.before, ch.prev.value.config.families.ToSeq(), main) && TablesWf(ch.before.tables)
  {
  }

  lemma OwnTableRestored(ch: Change, k: KernelState, main0: seq<Route>, main: seq<Route>, l: KernelState, f: Family,
                         t: int)
    requires BroughtBack(ch, k, main, l) && WasComplete(ch, main0) && TablesWf(k.tables)
    requires IsSnapshot(k, ch.prev.value.config.families.ToSeq(), main)
    requires ch.prev.value.config.families.Has(f)
             && (t == ch.prev.value.config.vpnTable || t == ch.prev.value.config.safeTable)
    ensures TableOf(l.tables, TableId(f, t)) == TableOf(ch.before.tables, TableId(f, t))
  {
    var c := ch.prev.value.config;
    BackMatches(ch, k, main, l);
    WasParts(ch, main0);
    hide BroughtBack, WasComplete, Starts, Desired, TablesMatch, Policy.Valid, IsSnapshot, ForeignKept, TablesWf;
    MainUnchanged(ch, k, main0, main);
    SafeTableSame(c, ch.before, k, main0, main, ch.before.tables, l.tables, f);
    VpnTableSame(c, main0, main, ch.before.tables, l.tables, f);
  }

  lemma LookupRestored(ch: Change, k: KernelState, main0: seq<Route>, main: seq<Route>, l: KernelState, f: Family,
                       r: Rule)
    requires BroughtBack(ch, k, main, l) && WasComplete(ch, main0) && TablesWf(k.tables)
    requires IsSnapshot(k, ch.prev.value.config.families.ToSeq(), main)
    requires r in ch.before.Rules(f) && r.action.Lookup?
    ensures TableOf(l.tables, TableId(r.family, r.table)) == TableOf(ch.before.tables, TableId(r.family, r.table))
  {
    var id := TableId(f, r.table);
    StartsBoth(ch, f);
    hide BroughtBack, WasComplete, IsSnapshot;
    if !OwnedTable(ch.Configs(), id) {
      ForeignTableRestored(ch, k, main, l, id);
    } else {
      OldLookup(ch, main0, f, r);
      OwnTableRestored(ch, k, main0, main, l, f, r.table);
    }
  }

  lemma OldLookup(ch: Change, main0: seq<Route>, f: Family, r: Rule)
    requires Starts(ch) && WasComplete(ch, main0)
    requires r in ch.before.Rules(f) && r.action.Lookup? && OwnedTable(ch.Configs(), TableId(f, r.table))
    ensures var c := ch.prev.value.config; c.families.Has(f) && (r.table == c.vpnTable || r.table == c.safeTable)
  {
    StartsBoth(ch, f);
    MainNotOwned(ch, f);
    CompiledRuleShape(ch.prev.value.config, f);
    hide Starts, CompileRules, OwnedTable;
    assert ch.Owned(f).Has(r.priority);
    assert r in ch.PrevRules(f);
  }

  /** The restored kernel decides every packet as the kernel before the failed update did. */
  lemma RestoredDecidesAlike(ch: Change, k: KernelState, main0: seq<Route>, main: seq<Route>, l: KernelState)
    requires BroughtBack(ch, k, main, l) && WasComplete(ch, main0) && TablesWf(k.tables)
    requires IsSnapshot(k, ch.prev.value.config.families.ToSeq(), main)
    ensures l.v4 == ch.before.v4 && l.v6 == ch.before.v6
    ensures forall p: Packet :: l.Route(p) == ch.before.Route(p)
  {
    assert OldExactly(ch);
    hide BroughtBack, WasComplete, IsSnapshot, OldExactly;
    RulesRestored(ch, k, main, l, V4);
    RulesRestored(ch, k, main, l, V6);
    forall p: Packet ensures l.Route(p) == ch.before.Route(p) {
      var f := FamilyOf(p.dst);
      forall r | r in ch.before.Rules(f) && r.action.Lookup?
        ensures TableOf(l.tables, TableId(r.family, r.table)) == TableOf(ch.before.tables, TableId(r.family, r.table))
      {
        LookupRestored(ch, k, main0, main, l, f, r);
      }
      EvalFrame(ch.before.Rules(f), l.tables, ch.before.tables, p);
    }
  }

  /******* The three calls *******/

  lemma KeptWider(cs: seq<Config>, ds: seq<Config>, before: KernelState, k: KernelState)
    requires Kept(cs, before, k) && forall c | c in cs :: c in ds
    ensures Kept(ds, before, k)
  {
    hide Tidy, OwnFamilies, Scope;
    forall f: Family ensures Outside(Scope(ds, f), k.Rules(f)) == Outside(Scope(ds, f), before.Rules(f)) {
      forall p | Scope(cs, f).Has(p) ensures Scope(ds, f).Has(p) {
        ScopeHas(cs, f, p);
        ScopeHas(ds, f, p);
      }
      assert Outside(Scope(cs, f), k.Rules(f)) == Outside(Scope(cs, f), before.Rules(f));
      OutsideCoarser(Scope(cs, f), Scope(ds, f), k.Rules(f), before.Rules(f));
    }
    assert Outside(Scope(ds, V4), k.Rules(V4)) == Outside(Scope(ds, V4), before.Rules(V4));
    assert Outside(Scope(ds, V6), k.Rules(V6)) == Outside(Scope(ds, V6), before.Rules(V6));
  }

  predicate SameBlock(c: Config, d: Config) {
    c.base == d.base && c.span == d.span
  }

  lemma BlockSwapKnown(ch: Change, dh: Change, f: Family, r: Rule)
    requires ch.prev.Some? && dh.Configs() == [ch.prev.value.config, ch.prev.value.config]
    requires dh.prev == ch.prev && SameBlock(ch.next.config, ch.prev.value.config)
    requires ch.prev.value.config.families.Has(f) && Known(ch, f, r)
    ensures Known(dh, f, r)
  {
    hide CompileRules;
    var last := ch.prev.value.config;
    assert last in ch.Configs();
    CompiledRuleShape(ch.next.config, f);
    if r in ch.NextRules(f) {
      assert Harmless(last.base, r);
    }
  }

  lemma SameScope(ch: Change, dh: Change, f: Family, p: int)
    requires ch.prev.Some? && dh.Configs() == [ch.prev.value.config, ch.prev.value.config]
    requires SameBlock(ch.next.config, ch.prev.value.config) && ch.prev.value.config.families.Has(f)
    ensures ch.Owned(f).Has(p) <==> dh.Owned(f).Has(p)
  {
    hide Scope;
    ScopeHas(ch.Configs(), f, p);
    ScopeHas(dh.Configs(), f, p);
    assert ch.prev.value.config in ch.Configs() && ch.prev.value.config in dh.Configs();
  }

  lemma BlockSwapFor(ch: Change, dh: Change, f: Family)
    requires ch.prev.Some? && dh.prev == ch.prev && dh.before == ch.before && StartsFor(ch, f)
    requires dh.next.config == ch.prev.value.config && SameBlock(ch.next.config, ch.prev.value.config)
    ensures StartsFor(dh, f)
  {
    hide CompileRules, Known, Scope, FirstAt, OwnedTable, GuardSet, Sorted, NoDup;
    var last, rs := ch.prev.value.config, ch.before.Rules(f);
    assert dh.Configs() == [last, last];
    SlotsFree(dh, f);
    forall r | r in rs && dh.Owned(f).Has(r.priority) ensures Known(dh, f, r) {
      ScopeHas(dh.Configs(), f, r.priority);
      SameScope(ch, dh, f, r.priority);
      BlockSwapKnown(ch, dh, f, r);
    }
    forall r | r in rs && !dh.Owned(f).Has(r.priority) && r.action.Lookup?
      ensures !OwnedTable(dh.Configs(), TableId(f, r.table))
    {
      if last.families.Has(f) {
        SameScope(ch, dh, f, r.priority);
      }
      LastTables(ch, dh, TableId(f, r.table));
    }
  }

  lemma LastTables(ch: Change, dh: Change, id: TableId)
    requires ch.prev.Some? && dh.Configs() == [ch.prev.value.config, ch.prev.value.config]
    requires !ch.prev.value.config.families.Has(id.family) || !OwnedTable(ch.Configs(), id)
    ensures !OwnedTable(dh.Configs(), id)
  {
    assert ch.prev.value.config in ch.Configs();
  }

  /** Whatever a failed update and a failed rollback left, the old policy may be applied
      again, if both policies have the same block. */
  lemma RestoreStarts(before: KernelState, prev: Option<DesiredState>, next: Config, main: seq<Route>,
                      failed: KernelState, k: KernelState)
    requires Starts(Attempt(before, prev, next, [])) && prev.Some? && SameBlock(next, prev.value.config)
    requires Shaped(Attempt(before, prev, next, main), failed) && Fewer(failed, k)
    ensures Starts(Attempt(k, prev, prev.value.config, []))
  {
    hide Shaped, Fewer, StartsFor, Policy.Valid, Desired, WellCompiled;
    ShapedRestarts(before, prev, next, main, failed);
    FewerStarts(failed, prev, next, k);
    var ch, dh := Attempt(k, prev, next, []), Attempt(k, prev, prev.value.config, []);
    DesiredConfig(next, []);
    DesiredConfig(prev.value.config, []);
    CompiledValid(prev.value);
    DesiredWellCompiled(prev.value.config, []);
    BlockSwapFor(ch, dh, V4);
    BlockSwapFor(ch, dh, V6);
  }

  lemma CompiledValid(d: DesiredState)
    requires WellCompiled(d)
    ensures Policy.Valid(d.config)
  {
  }

  /** Applies the new policy; if that fails, rolls back and applies the old one again. Each
      of the two attempts is safe from where it begins, if it may start there; the second
      one may if the rollback succeeded or the policies have the same block. If no call
      fails after the failed Apply, the old policy is back; `calls` counts the adapter's
      calls up to there. */
  method UpdateOrRestore(m: Manager, next: Config)
    returns (ok: bool, restored: bool, ghost calls: nat, ghost first: Try, ghost again: Try)
    requires m.Inv() && m.applied.Some? && Tidy(m.adapter.state)
    requires Policy.Valid(next) ==> Starts(Attempt(m.adapter.state, m.applied, next, []))
    modifies m, m.adapter
    ensures m.Inv() && old(m.adapter.calls) <= calls <= m.adapter.calls && old(m.adapter.trace) <= m.adapter.trace
    ensures Kept([next, old(m.applied).value.config], old(m.adapter.state), m.adapter.state)
    ensures first.before == old(m.adapter.state) && first.applied == old(m.applied) && first.config == next
    ensures first.from == |old(m.adapter.trace)| && (ok ==> first.to == |m.adapter.trace|)
    ensures SafeTry(first, m.adapter.trace)
    ensures !ok ==> again.config == old(m.applied).value.config && first.to <= again.from
                    && again.to == |m.adapter.trace| && (again.applied.Some? ==> again.applied == old(m.applied))
    ensures !ok && Starts(Attempt(again.before, again.applied, again.config, [])) ==> SafeTry(again, m.adapter.trace)
    ensures !ok && Policy.Valid(next) && (again.applied.None? || SameBlock(next, again.config)) ==>
              Starts(Attempt(again.before, again.applied, again.config, []))
    ensures ok ==> m.applied.Some? && m.applied.value.config == next && MayRefresh(m.adapter.state, m.applied.value)
    ensures !m.closed && Policy.Valid(next) && old(m.applied).value.config.tunIndex in m.adapter.links ==>
              m.adapter.NoFailure(calls, m.adapter.calls) ==> ok || restored
    ensures restored ==>
              && again.applied.None? && m.applied.Some? && m.applied.value.config == old(m.applied).value.config
              && MayRefresh(m.adapter.state, m.applied.value)
    ensures restored && WasComplete(Attempt(old(m.adapter.state), old(m.applied), next, []), old(m.appliedMain)) ==>
              && m.adapter.state.v4 == old(m.adapter.state).v4 && m.adapter.state.v6 == old(m.adapter.state).v6
              && forall p: Packet :: m.adapter.state.Route(p) == old(m.adapter.state).Route(p)
  {
    hide Starts, Safe, Desired, Policy.Valid, MayRefresh, Kept, Complete, OwnedEmpty, ForeignKept, Tidy, IsSnapshot;
    hide WasComplete, SafeSince, BroughtBack, KernelState.Route, Shaped, Ready, Bare, OwnFamilies, Fewer, SafeTry;
    ghost var before, was, n := m.adapter.state, m.applied, |m.adapter.trace|;
    var last := m.applied.value.config;
    ghost var cs := RollbackConfigs(next, m.applied);
    assert cs == [next, last];
    restored := false;
    ghost var ch := Attempt(before, was, next, []);
    DesiredConfig(next, []);
    ghost var main, at;
    TidyFamilies(before);
    ok, main, at := m.Apply(next);
    calls := m.adapter.calls;
    DesiredConfig(next, main);
    first := Try(before, was, next, main, n, |m.adapter.trace|);
    again := first;
    NothingSince(Attempt(before, was, next, main), m.adapter.trace);
    TryIsSafe(first, m.adapter.trace);
    if ok {
      return;
    }
    KeptTidy(cs, before, m.adapter.state);
    ghost var failed, trace, main1 := m.adapter.state, m.adapter.trace, main;
    var gone := m.Rollback(next);
    KeptTrans(cs, before, failed, m.adapter.state);
    ghost var k, from := m.adapter.state, |m.adapter.trace|;
    KeptTidy(cs, before, k);
    if gone {
      assert ch.Configs() == cs && last in cs;
      ClearedStarts(ch, k, last);
    } else if Policy.Valid(next) && SameBlock(next, last) {
      RestoreStarts(before, was, next, main1, failed, k);
    }
    ghost var starts := Starts(Attempt(k, if gone then None else was, last, []));
    var back;
    back, main, at := m.Apply(last);
    again := Try(k, if gone then None else was, last, main, from, |m.adapter.trace|);
    SafeTryLater(first, trace, m.adapter.trace);
    if starts {
      TryIsSafe(again, m.adapter.trace);
    }
    restored := gone && back;
    DesiredConfig(last, main);
    assert RollbackConfigs(last, None) == [last] && RollbackConfigs(last, was) == [last, last];
    KeptWider(if gone then [last] else [last, last], cs, k, m.adapter.state);
    KeptTrans(cs, before, k, m.adapter.state);
    if restored {
      AppliedAgain(ch, k, main, m.adapter.state);
      if WasComplete(ch, old(m.appliedMain)) {
        RestoredDecidesAlike(ch, k, old(m.appliedMain), main, m.adapter.state);
      }
    }
  }

  lemma TidyFamilies(k: KernelState)
    requires Tidy(k)
    ensures OwnFamilies(k)
  {
  }

  lemma KeptTidy(cs: seq<Config>, before: KernelState, k: KernelState)
    requires Kept(cs, before, k) && Tidy(before)
    ensures Tidy(k) && OwnFamilies(k) && ForeignKept(cs, before, k)
  {
  }

  lemma AppliedAgain(ch: Change, k: KernelState, main: seq<Route>, l: KernelState)
    requires Starts(ch) && ch.prev.Some? && Tidy(k) && OwnedEmpty(ch.Configs(), k)
             && ForeignKept(ch.Configs(), ch.before, k)
    requires Complete(Attempt(k, None, ch.prev.value.config, main), l)
    ensures BroughtBack(ch, k, main, l)
  {
    ConfigsValid(ch);
    hide Starts, Desired, Complete, OwnedEmpty, ForeignKept, Tidy, Policy.Valid;
    ClearedStarts(ch, k, ch.prev.value.config);
    StartsAnySnapshot(k, None, ch.prev.value.config, main);
  }

  /******* Refreshing whatever the kernel holds *******/

  /** Rules outside the policy's block do not use its tables. */
  ghost predicate ForeignApart(c: Config, k: KernelState) {
    forall f: Family, r | r in k.Rules(f) && !Scope([c], f).Has(r.priority) && r.action.Lookup? ::
      !OwnedTable([c], TableId(f, r.table))
  }

  /** If the first match of a request was `g`, everything else is still there. */
  lemma {:induction false} OnlyGone(rs: seq<Rule>, spec: Rule, g: Rule)
    requires NoDup(rs) && g in rs && g !in RemoveRule(rs, spec)
    ensures forall x :: x in RemoveRule(rs, spec) <==> x in rs && x != g
  {
    TailFacts(rs);
    assert rs == [rs[0]] + rs[1..];
    if SpecMatches(spec, rs[0]) {
      assert RemoveRule(rs, spec) == rs[1..];
      assert rs[0] == g;
      forall x | x in rs[1..] ensures x != g {
        assert rs[0] != x;
      }
    } else {
      assert RemoveRule(rs, spec) == [rs[0]] + RemoveRule(rs[1..], spec);
      OnlyGone(rs[1..], spec, g);
    }
  }

  lemma ScopeTwice(c: Config, f: Family, p: int)
    ensures Scope([c, c], f).Has(p) <==> Scope([c], f).Has(p)
  {
    ScopeHas([c, c], f, p);
    ScopeHas([c], f, p);
  }

  lemma CompiledInScope(c: Config, f: Family, r: Rule)
    requires Policy.Valid(c) && c.families.Has(f) && (r in CompileRules(c, f) || r == TransitionGuard(c, f))
    ensures Scope([c, c], f).Has(r.priority)
  {
    hide CompileRules;
    CompiledRuleShape(c, f);
    ScopeHas([c, c], f, r.priority);
    assert c in [c, c];
  }

  /** The guard gone, the list holds the old rules without it, in or out of the block. */
  ghost predicate WithoutGuard(c: Config, f: Family, rs: seq<Rule>, after: seq<Rule>) {
    && Kernel.Sorted(after) && NoDup(after)
    && Outside(Scope([c, c], f), after) == Outside(Scope([c, c], f), rs)
    && (forall x | x in after :: x in rs || x == TransitionGuard(c, f))
  }

  lemma RefreshedShape(c: Config, before: KernelState, f: Family)
    requires Policy.Valid(c) && c.families.Has(f) && Tidy(before)
    ensures WithoutGuard(c, f, before.Rules(f), RefreshedRules(before, c, f))
  {
    var g, rs := TransitionGuard(c, f), before.Rules(f);
    CompiledInScope(c, f, g);
    hide Policy.Valid, CompileRules, Scope, Outside, InsertRule, RemoveRule;
    AddFacts(rs, g);
    RemoveFacts(AddRule(rs, g), g);
    if g !in rs {
      OutsideInsert(Scope([c, c], f), rs, g);
    }
    OutsideRemove(Scope([c, c], f), AddRule(rs, g), g);
  }

  /** Inside the block: the compiled rules and perhaps the guard. */
  ghost predicate HoldsPolicy(c: Config, f: Family, rs: seq<Rule>) {
    && (forall r | r in rs && Scope([c, c], f).Has(r.priority) :: r in CompileRules(c, f) || r == TransitionGuard(c, f))
    && (forall r | r in CompileRules(c, f) :: r in rs)
  }

  /** The list that a refresh completes: foreign rules and the compiled ones. */
  function CompletedRules(c: Config, f: Family, rs: seq<Rule>): seq<Rule> {
    AddAll(Outside(Scope([c, c], f), rs), CompileRules(c, f))
  }

  lemma CompletedFacts(c: Config, f: Family, rs: seq<Rule>)
    requires Policy.Valid(c) && c.families.Has(f) && Kernel.Sorted(rs) && NoDup(rs)
    ensures Kernel.Sorted(CompletedRules(c, f, rs))
    ensures Outside(Scope([c, c], f), CompletedRules(c, f, rs)) == Outside(Scope([c, c], f), rs)
    ensures Inside(Scope([c, c], f), CompletedRules(c, f, rs)) == CompileRules(c, f)
    ensures forall r :: r in CompletedRules(c, f, rs) <==>
              r in CompileRules(c, f) || (r in rs && !Scope([c, c], f).Has(r.priority))
  {
    hide Policy.Valid, CompileRules, Scope;
    forall r | r in CompileRules(c, f) ensures Scope([c, c], f).Has(r.priority) {
      CompiledInScope(c, f, r);
    }
    MergeFacts(Scope([c, c], f), rs, CompileRules(c, f), c, f);
  }

  lemma GuardAlone(c: Config, f: Family, rs: seq<Rule>)
    requires Policy.Valid(c) && c.families.Has(f) && NoDup(rs) && HoldsPolicy(c, f, rs)
    ensures var g := TransitionGuard(c, f);
            forall x :: x in RemoveRule(AddRule(rs, g), g) <==> x in rs && x != g
  {
    var g := TransitionGuard(c, f);
    AddFacts(rs, g);
    CompiledRuleShape(c, f);
    CompiledInScope(c, f, g);
    hide Policy.Valid, CompileRules, Scope, InsertRule, RemoveRule;
    assert forall x | x in AddRule(rs, g) && x.priority == g.priority :: x == g;
    OnlyAtIsFirst(AddRule(rs, g), g);
    SpecMatchesItself(g);
    RemoveFirstAt(AddRule(rs, g), g, g);
  }

  lemma RefreshCompletesRules(c: Config, before: KernelState, f: Family)
    requires Policy.Valid(c) && c.families.Has(f) && Tidy(before) && HoldsPolicy(c, f, before.Rules(f))
    ensures RefreshedRules(before, c, f) == CompletedRules(c, f, before.Rules(f))
  {
    var rs, after, s := before.Rules(f), RefreshedRules(before, c, f), Scope([c, c], f);
    RefreshedShape(c, before, f);
    GuardAlone(c, f, rs);
    CompletedFacts(c, f, rs);
    CompiledRuleShape(c, f);
    forall r ensures r in after && s.Has(r.priority) <==> r in CompileRules(c, f) {
      if r in CompileRules(c, f) {
        CompiledInScope(c, f, r);
      }
    }
    hide Policy.Valid, CompileRules, Scope, RefreshedRules, CompletedRules;
    InsideIsExactly(s, after, CompileRules(c, f), c, f);
    PartsDetermine(s, after, CompletedRules(c, f, rs));
  }

  lemma CompletedHeldRules(c: Config, before: KernelState, f: Family)
    requires Policy.Valid(c) && c.families.Has(f) && Tidy(before)
    requires RefreshedRules(before, c, f) == CompletedRules(c, f, before.Rules(f))
    ensures HoldsPolicy(c, f, before.Rules(f))
  {
    hide Policy.Valid, CompileRules, Scope, CompletedRules, RemoveRule, InsertRule, AddRule;
    hide Kernel.Sorted, NoDup, Inside;
    var g, rs := TransitionGuard(c, f), before.Rules(f);
    CompletedFacts(c, f, rs);
    CompiledRuleShape(c, f);
    CompiledInScope(c, f, g);
    AddFacts(rs, g);
    assert g !in RefreshedRules(before, c, f);
    OnlyGone(AddRule(rs, g), g, g);
  }

  lemma ApartTwice(c: Config, before: KernelState, f: Family)
    requires ForeignApart(c, before)
    ensures forall r | r in before.Rules(f) && !Scope([c, c], f).Has(r.priority) && r.action.Lookup? ::
              !OwnedTable([c, c], TableId(f, r.table))
  {
    hide Scope;
    forall r | r in before.Rules(f) && !Scope([c, c], f).Has(r.priority) && r.action.Lookup?
      ensures !OwnedTable([c, c], TableId(f, r.table))
    {
      ScopeTwice(c, f, r.priority);
      assert !OwnedTable([c], TableId(f, r.table));
    }
  }

  /** The start condition of a refresh, spelled out. */
  lemma StartsHolds(before: KernelState, d: DesiredState, next: DesiredState, f: Family)
    requires next.config == d.config && Tidy(before) && ForeignApart(d.config, before)
    ensures var ch := Change(before, Some(d), next);
            StartsFor(ch, f) && HoldingFor(ch, f) <==>
            (d.config.families.Has(f) ==> HoldsPolicy(d.config, f, before.Rules(f)))
  {
    var c, ch := d.config, Change(before, Some(d), next);
    assert ch.Configs() == [c, c];
    ApartTwice(c, before, f);
    assert forall r :: r in ch.Guards(f) <==> c.families.Has(f) && r == TransitionGuard(c, f);
    if !c.families.Has(f) {
      forall r | r in before.Rules(f) ensures !Scope([c, c], f).Has(r.priority) {
        ScopeHas([c, c], f, r.priority);
      }
    }
    hide Scope, CompileRules, OwnedTable, ForeignApart, GuardSet, Kernel.Sorted, NoDup, StartsFor;
    if c.families.Has(f) ==> HoldsPolicy(c, f, before.Rules(f)) {
      HoldingStarts(ch, f);
    }
  }

  lemma RefreshRulesIff(before: KernelState, d: DesiredState, main: seq<Route>, f: Family)
    requires Policy.Valid(d.config) && Tidy(before) && ForeignApart(d.config, before)
    ensures RefreshedRules(before, d.config, f) == NewRules(Attempt(before, Some(d), d.config, main), f) <==>
            (var start := Attempt(before, Some(d), d.config, []); StartsFor(start, f) && HoldingFor(start, f))
  {
    var c, ch := d.config, Attempt(before, Some(d), d.config, main);
    DesiredConfig(c, main);
    assert ch.Configs() == [c, c];
    DesiredConfig(c, []);
    StartsHolds(before, d, Desired(c, []), f);
    hide StartsFor, HoldingFor, Desired, Policy.Valid, HoldsPolicy, ForeignApart, Tidy;
    if c.families.Has(f) {
      assert NewRules(ch, f) == CompletedRules(c, f, before.Rules(f));
      if HoldsPolicy(c, f, before.Rules(f)) {
        RefreshCompletesRules(c, before, f);
      }
      if RefreshedRules(before, c, f) == CompletedRules(c, f, before.Rules(f)) {
        CompletedHeldRules(c, before, f);
      }
    } else {
      forall r | r in before.Rules(f) ensures !ch.Owned(f).Has(r.priority) {
        ScopeHas([c, c], f, r.priority);
      }
      OutsideOfNothing(ch.Owned(f), before.Rules(f));
    }
  }

  function WithoutSafe(c: Config, ts: Tables): Tables {
    map id | id in ts && !(c.families.Has(id.family) && id.table == c.safeTable) :: ts[id]
  }

  lemma ReplacedInstall(c: Config, routes: seq<Route>, ts: Tables, us: Tables)
    requires SafeReplaced(c, routes, ts, us)
    requires forall r | r in routes :: c.families.Has(r.family) && r.table == c.safeTable
    ensures SafeFlushed(c, ts, WithoutSafe(c, ts)) && SameTables(us, InstallAll(WithoutSafe(c, ts), routes))
  {
    var start := WithoutSafe(c, ts);
    forall id: TableId ensures TableOf(us, id) == TableOf(InstallAll(start, routes), id) {
      if c.families.Has(id.family) && id.table == c.safeTable {
        InstallById(start, map[], routes, id);
      } else {
        InstallFrame(start, routes, id);
      }
    }
  }

  lemma CompleteVpn(ch: Change, d: DesiredState, k: KernelState)
    requires WellCompiled(ch.next) && ch.next.config == d.config && ch.next.vpnRoutes == d.vpnRoutes
    requires SameTables(k.tables, NewTables(ch))
             && SafeReplaced(d.config, ch.next.safeRoutes, ch.before.tables, k.tables)
    ensures VpnMatch(ch.before.tables, d)
  {
    NewTablesMatch(ch, k.tables);
    TablesMatchVpn(k.tables, ch.next);
    hide NewTables, TablesMatch, InstallAll, OwnedTable;
    assert d.config.vpnTable != d.config.safeTable;
  }

  lemma RefreshTablesMatch(before: KernelState, d: DesiredState, main: seq<Route>, k: KernelState)
    requires MayRefresh(before, d) && Policy.Valid(d.config) && Desired(d.config, main).vpnRoutes == d.vpnRoutes
    requires SafeReplaced(d.config, Desired(d.config, main).safeRoutes, before.tables, k.tables)
    ensures SameTables(k.tables, NewTables(Attempt(before, Some(d), d.config, main)))
  {
    var c, ch := d.config, Attempt(before, Some(d), d.config, main);
    DesiredConfig(c, main);
    DesiredWellCompiled(c, main);
    MayRefreshStarts(before, d, main);
    hide Policy.Valid, Desired, Starts, NewTables, SafeReplaced, SafeFlushed, VpnMatch;
    ReplacedInstall(c, ch.next.safeRoutes, before.tables, k.tables);
    RefreshTables(ch, d, WithoutSafe(c, before.tables), k.tables);
  }

  /** From any kernel, a refresh that succeeds completes the policy if and only if the
      kernel held the policy's rules and VPN tables before; guards may have been there too. */
  lemma RefreshCompletesIff(before: KernelState, d: DesiredState, main0: seq<Route>, main: seq<Route>, k: KernelState)
    requires Policy.Valid(d.config) && d == Desired(d.config, main0) && Tidy(before) && ForeignApart(d.config, before)
    requires Refreshed(before, d.config, main, k)
    ensures Complete(Attempt(before, Some(d), d.config, main), k) <==> MayRefresh(before, d)
  {
    hide StartsFor, HoldingFor, Policy.Valid, Desired, NewRules, NewTables, RefreshedRules;
    hide VpnMatch, WellCompiled, ForeignApart, Tidy, SafeReplaced;
    var c, ch := d.config, Attempt(before, Some(d), d.config, main);
    DesiredVpnSame(c, main, main0);
    DesiredWellCompiled(c, main0);
    DesiredWellCompiled(c, main);
    DesiredWellCompiled(c, []);
    RefreshRulesIff(before, d, main, V4);
    RefreshRulesIff(before, d, main, V6);
    assert k.Rules(V4) == RefreshedRules(before, c, V4) && k.Rules(V6) == RefreshedRules(before, c, V6);
    if Complete(ch, k) {
      CompleteVpn(ch, d, k);
    }
    if MayRefresh(before, d) {
      RefreshTablesMatch(before, d, main, k);
    }
  }

  /******* Attempts that stop part way *******/

  /** Every packet is unreachable, or decided as before, or as by the complete new policy,
      compiled from the main table in whichever order an attempt read it. */
  ghost predicate SafeInAny(before: KernelState, prev: Option<DesiredState>, c: Config, k: KernelState) {
    forall p: Packet ::
      || k.Route(p) == Blocked
      || k.Route(p) == before.Route(p)
      || exists main: seq<Route> :: && IsSnapshot(before, c.families.ToSeq(), main)
                                    && k.Route(p) == NewKernel(Attempt(before, prev, c, main)).Route(p)
  }

  lemma SafeInAnySelf(before: KernelState, prev: Option<DesiredState>, c: Config)
    ensures SafeInAny(before, prev, c, before)
  {
  }

  ghost predicate SafeInAnySince(before: KernelState, prev: Option<DesiredState>, c: Config, trace: seq<KernelState>,
                                 n: nat) {
    forall i | n <= i < |trace| :: SafeInAny(before, prev, c, trace[i])
  }

  /** Two kernels that differ only in what the manager owns. */
  ghost predicate SameElsewhere(ch: Change, dh: Change) {
    && ch.prev == dh.prev && ch.next == dh.next && Starts(ch)
    && ForeignKept(ch.Configs(), ch.before, dh.before)
  }

  lemma SameNewTables(ch: Change, dh: Change)
    requires SameElsewhere(ch, dh)
    ensures SameTables(NewTables(ch), NewTables(dh))
  {
    var cs := ch.Configs();
    assert dh.Configs() == cs;
    var ts, us := Flushed(cs, ch.before.tables), Flushed(cs, dh.before.tables);
    hide Starts, InstallAll, OwnedTable;
    forall id: TableId ensures TableOf(NewTables(ch), id) == TableOf(NewTables(dh), id) {
      assert TableOf(ts, id) == TableOf(us, id);
      InstallById(ts, us, ch.next.vpnRoutes, id);
      InstallById(InstallAll(ts, ch.next.vpnRoutes), InstallAll(us, ch.next.vpnRoutes), ch.next.safeRoutes, id);
    }
  }

  /** The complete new state does not depend on what the manager left where it began. */
  lemma SameGoal(ch: Change, dh: Change)
    requires SameElsewhere(ch, dh)
    ensures NewRules(ch, V4) == NewRules(dh, V4) && NewRules(ch, V6) == NewRules(dh, V6)
    ensures forall p: Packet :: NewKernel(ch).Route(p) == NewKernel(dh).Route(p)
  {
    assert dh.Configs() == ch.Configs();
    assert forall f: Family :: ch.Owned(f) == dh.Owned(f) && ch.NextRules(f) == dh.NextRules(f);
    SameNewTables(ch, dh);
    hide Starts, NewTables, CompileRules, AddAll, Outside, Scope;
    forall p: Packet ensures NewKernel(ch).Route(p) == NewKernel(dh).Route(p) {
      var f := FamilyOf(p.dst);
      EvalFrame(NewRules(ch, f), NewTables(ch), NewTables(dh), p);
    }
  }

  /** A snapshot of one is a snapshot of the other. */
  lemma SameMain(ch: Change, dh: Change, fs: seq<Family>, main: seq<Route>)
    requires SameElsewhere(ch, dh) && IsSnapshot(dh.before, fs, main)
    ensures IsSnapshot(ch.before, fs, main)
  {
    forall f: Family
      ensures TableOf(ch.before.tables, TableId(f, RT_TABLE_MAIN))
           == TableOf(dh.before.tables, TableId(f, RT_TABLE_MAIN))
    {
      MainNotOwned(ch, f);
    }
    hide Starts, ForeignKept;
    assert forall f: Family, key :: InMain(ch.before, f, key) <==> InMain(dh.before, f, key);
  }

  lemma SafeAsBefore(before: KernelState, prev: Option<DesiredState>, c: Config, main: seq<Route>, from: KernelState,
                     k: KernelState)
    requires SafeInAny(before, prev, c, from) && Safe(Attempt(from, prev, c, main), k)
    requires SameElsewhere(Attempt(before, prev, c, main), Attempt(from, prev, c, main))
    requires k == from || IsSnapshot(before, c.families.ToSeq(), main)
    ensures SafeInAny(before, prev, c, k)
  {
    SameGoal(Attempt(before, prev, c, main), Attempt(from, prev, c, main));
    hide KernelState.Route, NewKernel, SameElsewhere, IsSnapshot, Desired;
    if k != from {
      forall p: Packet
        ensures || k.Route(p) == Blocked
                || k.Route(p) == before.Route(p)
                || exists m: seq<Route> :: && IsSnapshot(before, c.families.ToSeq(), m)
                                           && k.Route(p) == NewKernel(Attempt(before, prev, c, m)).Route(p)
      {
        if k.Route(p) == NewKernel(Attempt(from, prev, c, main)).Route(p) {
          assert k.Route(p) == NewKernel(Attempt(before, prev, c, main)).Route(p);
        }
      }
    }
  }

  /** One more attempt after safe ones. */
  lemma SafeAgain(before: KernelState, prev: Option<DesiredState>, c: Config, main: seq<Route>, from: KernelState,
                  trace: seq<KernelState>, m: nat, n: nat)
    requires m <= n <= |trace| && SafeInAnySince(before, prev, c, trace[..n], m) && SafeInAny(before, prev, c, from)
    requires SafeSince(Attempt(from, prev, c, main), trace, n)
    requires SameElsewhere(Attempt(before, prev, c, main), Attempt(from, prev, c, main))
    requires n == |trace| || IsSnapshot(before, c.families.ToSeq(), main)
    ensures SafeInAnySince(before, prev, c, trace, m)
  {
    hide SafeInAny, Safe, SameElsewhere, IsSnapshot;
    forall i | m <= i < |trace| ensures SafeInAny(before, prev, c, trace[i]) {
      if i < n {
        assert trace[i] == trace[..n][i];
      } else {
        SafeAsBefore(before, prev, c, main, from, trace[i]);
      }
    }
  }

  lemma CompleteAlike(ch: Change, dh: Change, k: KernelState)
    requires SameElsewhere(ch, dh) && Complete(dh, k)
    ensures Complete(ch, k)
  {
    SameGoal(ch, dh);
    SameNewTables(ch, dh);
    hide SameElsewhere, NewRules, NewTables;
  }

  /** Applies a policy again and again until an attempt succeeds, at most `attempts` times.
      Every kernel state of every attempt is safe, wherever the calls failed, and the attempt
      that succeeds completes the policy. */
  method ApplyRepeatedly(m: Manager, config: Config, attempts: nat) returns (ok: bool, ghost main: seq<Route>)
    requires m.Inv() && Tidy(m.adapter.state)
    requires Starts(Attempt(m.adapter.state, m.applied, config, []))
    modifies m, m.adapter
    ensures m.Inv() && old(m.adapter.trace) <= m.adapter.trace
    ensures SafeInAnySince(old(m.adapter.state), old(m.applied), config, m.adapter.trace, |old(m.adapter.trace)|)
    ensures Kept(RollbackConfigs(config, old(m.applied)), old(m.adapter.state), m.adapter.state)
    ensures ok ==> IsSnapshot(old(m.adapter.state), config.families.ToSeq(), main)
    ensures ok ==> Complete(Attempt(old(m.adapter.state), old(m.applied), config, main), m.adapter.state)
    ensures ok ==> m.applied == Some(Desired(config, main)) && MayRefresh(m.adapter.state, m.applied.value)
    ensures !ok ==> m.applied == old(m.applied) && Starts(Attempt(m.adapter.state, m.applied, config, []))
  {
    hide Starts, Desired, Policy.Valid, MayRefresh, Kept, Complete, Tidy, IsSnapshot, SafeSince, Safe, Shaped;
    hide Ready, Bare, OwnFamilies, SafeInAny, SafeInAnySince, SameElsewhere;
    ghost var before, was, n := m.adapter.state, m.applied, |m.adapter.trace|;
    ghost var cs := RollbackConfigs(config, was);
    KeptSelf(cs, before);
    SafeInAnySelf(before, was, config);
    NothingInAny(before, was, config, m.adapter.trace);
    StartsValid(before, was, config);
    ok, main := false, [];
    for i := 0 to attempts
      invariant m.Inv() && old(m.adapter.trace) <= m.adapter.trace && m.applied == was && !ok
      invariant Kept(cs, before, m.adapter.state) && Starts(Attempt(m.adapter.state, was, config, []))
      invariant SafeInAny(before, was, config, m.adapter.state)
      invariant SafeInAnySince(before, was, config, m.adapter.trace, n)
    {
      ghost var k, trace, at := m.adapter.state, m.adapter.trace, 0;
      KeptTidy(cs, before, k);
      ok, main, at := m.Apply(config);
      KeptTrans(cs, before, k, m.adapter.state);
      assert m.adapter.trace[..|trace|] == trace;
      ghost var ch, dh := Attempt(before, was, config, main), Attempt(k, was, config, main);
      StillElsewhere(before, was, config, main, k);
      if IsSnapshot(k, config.families.ToSeq(), main) {
        SameMain(ch, dh, config.families.ToSeq(), main);
      }
      SafeAgain(before, was, config, main, k, m.adapter.trace, n, |trace|);
      SafeAsBefore(before, was, config, main, k, m.adapter.state);
      if ok {
        CompleteAlike(ch, dh, m.adapter.state);
        return;
      }
      ShapedRestarts(k, was, config, main, m.adapter.state);
    }
  }

  lemma StillElsewhere(before: KernelState, prev: Option<DesiredState>, c: Config, main: seq<Route>, k: KernelState)
    requires Starts(Attempt(before, prev, c, [])) && Kept(RollbackConfigs(c, prev), before, k)
    ensures SameElsewhere(Attempt(before, prev, c, main), Attempt(k, prev, c, main))
  {
    hide Starts, Desired;
    StartsValid(before, prev, c);
    StartsAnySnapshot(before, prev, c, main);
    DesiredConfig(c, main);
    assert Attempt(before, prev, c, main).Configs() == RollbackConfigs(c, prev);
  }

  lemma NothingInAny(before: KernelState, prev: Option<DesiredState>, c: Config, trace: seq<KernelState>)
    ensures SafeInAnySince(before, prev, c, trace, |trace|)
  {
  }

  /** The failing family of a refresh: Apply stops at the first call that adds a compiled
      rule, call number `at`, and a refresh follows that meets no error. Then nothing but the
      foreign rules is left to decide. */
  method FailedApplyThenRefresh(m: Manager, config: Config) returns (refreshed: bool, ghost at: nat)
    requires m.Inv() && !m.closed && m.applied.Some? && Tidy(m.adapter.state)
    requires Starts(Attempt(m.adapter.state, m.applied, config, []))
    requires m.applied.value.config.base == config.base
    modifies m, m.adapter
    ensures m.Inv() && old(m.adapter.calls) <= at
    ensures config.tunIndex in m.adapter.links && refreshed ==>
              m.adapter.NoFailure(old(m.adapter.calls), at) && m.adapter.fails(at) ==>
              forall f: Family | old(m.applied).value.config.families.Has(f) ::
                m.adapter.state.Rules(f)
                == Outside(Scope([config, old(m.applied).value.config], f), old(m.adapter.state).Rules(f))
  {
    hide Starts, Desired, Policy.Valid, MayRefresh, Kept, Complete, Tidy, IsSnapshot, SafeSince, Safe, Shaped;
    hide Ready, Bare, GuardsOnly, OwnFamilies, RefreshedRules, Scope, Outside, SafeReplaced;
    ghost var before, was := m.adapter.state, m.applied;
    TidyFamilies(before);
    DesiredConfig(config, []);
    ghost var main;
    var ok;
    ok, main, at := m.Apply(config);
    ghost var k := m.adapter.state;
    ghost var ch := Attempt(before, was, config, main);
    DesiredConfig(config, main);
    StartsValid(before, was, config);
    StartsAnySnapshot(before, was, config, main);
    assert ch.Configs() == [config, was.value.config];
    refreshed, main := m.Refresh();
    if config.tunIndex in m.adapter.links && refreshed
       && m.adapter.NoFailure(old(m.adapter.calls), at) && m.adapter.fails(at) {
      SameBaseOffSlots(ch);
      BareIsGuards(ch, k);
      forall f: Family | was.value.config.families.Has(f)
        ensures m.adapter.state.Rules(f) == Outside(ch.Owned(f), before.Rules(f))
      {
        RefreshOpensGuardsOnly(ch, k, f);
      }
    }
  }
}
