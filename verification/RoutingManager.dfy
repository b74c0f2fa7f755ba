/** The manager object. `applied` is the last state it installed completely. */
module RoutingManager {
  import opened Netip
  import opened Policy
  import opened Kernel
  import opened Transition
  import opened Safety
  import opened Steps
  import opened Adapters
  import opened Managers
  import opened Stages
  import opened Reconciler

  /** The change that applying `c` with the given snapshot attempts. */
  ghost function Attempt(before: KernelState, prev: Option<DesiredState>, c: Config, main: seq<Route>): Change {
    Change(before, prev, Desired(c, main))
  }

  /** The kernel is exactly the complete new state of a change. */
  ghost predicate Complete(ch: Change, k: KernelState) {
    && k.v4 == NewRules(ch, V4) && k.v6 == NewRules(ch, V6)
    && SameTables(k.tables, NewTables(ch))
  }

  function RollbackConfigs(c: Config, applied: Option<DesiredState>): seq<Config> {
    [c] + if applied.Some? then [applied.value.config] else []
  }

  /******* Refresh *******/

  lemma SameConfigShape(ch: Change, dh: Change, k: KernelState)
    requires ch.before == dh.before && ch.prev == dh.prev && ch.next.config == dh.next.config && Guarded(ch, k)
    ensures Guarded(dh, k)
  {
    assert ch.Configs() == dh.Configs();
    assert forall f: Family :: ch.PrevRules(f) == dh.PrevRules(f) && ch.NextRules(f) == dh.NextRules(f);
    assert forall f: Family :: ch.Owned(f) == dh.Owned(f) && ch.Guards(f) == dh.Guards(f);
    assert ShapedFor(dh, V4, k.v4) && ShapedFor(dh, V6, k.v6);
  }

  lemma SameConfigOld(ch: Change, dh: Change, k: KernelState)
    requires ch.before == dh.before && ch.prev == dh.prev && ch.next.config == dh.next.config && OldOnly(ch, k)
    ensures OldOnly(dh, k)
  {
    assert ch.Configs() == dh.Configs();
    assert forall f: Family ::
              ch.PrevRules(f) == dh.PrevRules(f) && ch.Owned(f) == dh.Owned(f) && ch.Guards(f) == dh.Guards(f);
  }

  /** The old policy's rules are all there, and in its block nothing else than guards. */
  ghost predicate HoldingFor(ch: Change, f: Family) {
    && (forall r | r in ch.PrevRules(f) :: r in ch.before.Rules(f))
    && (forall r | r in ch.before.Rules(f) && ch.Owned(f).Has(r.priority) :: r in ch.PrevRules(f) || r in ch.Guards(f))
  }

  ghost predicate Holding(ch: Change) {
    HoldingFor(ch, V4) && HoldingFor(ch, V6)
  }

  lemma SameConfigHolding(ch: Change, dh: Change)
    requires ch.before == dh.before && ch.prev == dh.prev && ch.next.config == dh.next.config && Holding(ch)
    ensures Holding(dh)
  {
    assert ch.Configs() == dh.Configs();
    assert forall f: Family ::
              ch.PrevRules(f) == dh.PrevRules(f) && ch.Owned(f) == dh.Owned(f) && ch.Guards(f) == dh.Guards(f);
  }

  /** With one configuration the compiled rules never sit on the guard's slot. */
  lemma SameConfigReady(ch: Change, k: KernelState)
    requires Starts(ch) && Guarded(ch, k) && OldOnly(ch, k)
    requires ch.prev.Some? && ch.prev.value.config == ch.next.config
    ensures Ready(ch, k)
  {
    hide Starts, OldOnly, ShapedFor, CompileRules, GuardSet, Scope;
    forall f: Family, g, x | g in ch.Guards(f) && x in k.Rules(f) && x.priority == g.priority ensures x == g {
      OneOnSlot(ch, k, f, g, x);
    }
  }

  lemma OneOnSlot(ch: Change, k: KernelState, f: Family, g: Rule, x: Rule)
    requires Starts(ch) && Guarded(ch, k) && ch.prev.Some? && ch.prev.value.config == ch.next.config
    requires g in ch.Guards(f) && x in k.Rules(f) && x.priority == g.priority
    ensures x == g
  {
    hide Starts, StartsFor, ShapedFor, CompileRules, Scope;
    StartsBoth(ch, f);
    ShapedBoth(ch, k, f);
    GuardFacts(ch, f, g);
    ShapedKnown(ch, f, k.Rules(f), x);
    if x in ch.PrevRules(f) || x in ch.NextRules(f) {
      SlotFree(ch, f, x, g);
    } else if x in ch.Guards(f) {
      GuardsByPriority(ch, f, x, g);
    }
  }

  lemma SlotFree(ch: Change, f: Family, r: Rule, g: Rule)
    requires ch.prev.Some? && ch.prev.value.config == ch.next.config
    requires (r in ch.PrevRules(f) || r in ch.NextRules(f)) && g in ch.Guards(f)
    ensures r.priority != g.priority
  {
    CompiledRuleShape(ch.next.config, f);
    assert ch.Configs() == [ch.next.config, ch.next.config];
  }

  lemma RefreshFinishing(ch: Change, k: KernelState)
    requires Starts(ch) && Ready(ch, k) && Holding(ch)
    requires ch.prev.Some? && ch.prev.value.config == ch.next.config
    requires forall f: Family, r | r in ch.NextRules(f) :: r in k.Rules(f)
    requires SameTables(k.tables, NewTables(ch))
    ensures Finishing(ch, k)
  {
    hide Starts, NewTables, ShapedFor, CompileRules, Scope, GuardSet, HoldingFor, OldOnlyFor;
    forall f: Family, g, x | g in ch.Guards(f) && x in k.Rules(f) && x.priority == g.priority ensures x == g {
      OneOnSlot(ch, k, f, g, x);
    }
    LookupsLast(ch, k);
    assert FirstOnes(ch, V4, k.Rules(V4)) && FirstOnes(ch, V6, k.Rules(V6));
    assert forall r | r in ch.NextRules(V4) :: r in k.Rules(V4);
    assert forall r | r in ch.NextRules(V6) :: r in k.Rules(V6);
    RefreshFinishingFor(ch, V4, k.v4);
    RefreshFinishingFor(ch, V6, k.v6);
  }

  lemma RefreshFinishingFor(ch: Change, f: Family, rs: seq<Rule>)
    requires ShapedFor(ch, f, rs) && OldOnlyFor(ch, f, rs) && FirstOnes(ch, f, rs) && HoldingFor(ch, f)
    requires ch.prev.Some? && ch.prev.value.config == ch.next.config
    requires forall r | r in ch.NextRules(f) :: r in rs
    ensures FinishingFor(ch, f, rs)
  {
    assert ch.PrevRules(f) == ch.NextRules(f);
  }

  lemma InstallingHasOld(ch: Change, k: KernelState)
    requires Holding(ch) && Installing(ch, k)
    requires ch.prev.Some? && ch.prev.value.config == ch.next.config
    ensures forall f: Family, r | r in ch.NextRules(f) :: r in k.Rules(f)
  {
    hide ShapedFor, CompileRules;
    forall f: Family, r | r in ch.NextRules(f) ensures r in k.Rules(f) {
      assert HoldingFor(ch, f) && ch.PrevRules(f) == ch.NextRules(f);
      assert r in ch.before.Rules(f);
      WithoutMembers(Extra(ch, f, ch.before.Rules(f)), k.Rules(f));
    }
  }

  /** Empties one table in every family, going on after a failure. */
  method FlushTable(a: Adapter, ghost ch: Change, families: seq<Family>, table: int) returns (ok: bool)
    requires a.Valid()
    requires forall f | f in families :: OwnedTable(ch.Configs(), TableId(f, table))
    modifies a
    ensures old(a.calls) <= a.calls && (a.NoFailure(old(a.calls), a.calls) ==> ok)
    ensures a.Valid() && old(a.trace) <= a.trace
    ensures a.state.v4 == old(a.state).v4 && a.state.v6 == old(a.state).v6
    ensures ok ==> forall f | f in families :: TableOf(a.state.tables, TableId(f, table)) == map[]
    ensures forall id: TableId | id.table != table || id.family !in families ::
              TableOf(a.state.tables, id) == TableOf(old(a.state).tables, id)
    ensures Starts(ch) && Ready(ch, old(a.state)) ==> Ready(ch, a.state) && SafeSince(ch, a.trace, |old(a.trace)|)
  {
    hide Starts, Safe, Ready, OwnedTable;
    ok := true;
    ghost var behind := Starts(ch) && Ready(ch, a.state);
    for i := 0 to |families|
      invariant old(a.calls) <= a.calls && (a.NoFailure(old(a.calls), a.calls) ==> ok)
      invariant a.Valid() && old(a.trace) <= a.trace
      invariant a.state.v4 == old(a.state).v4 && a.state.v6 == old(a.state).v6
      invariant ok ==> forall j | 0 <= j < i :: TableOf(a.state.tables, TableId(families[j], table)) == map[]
      invariant forall id: TableId | id.table != table || id.family !in families ::
                  TableOf(a.state.tables, id) == TableOf(old(a.state).tables, id)
      invariant behind ==> Ready(ch, a.state) && SafeSince(ch, a.trace, |old(a.trace)|)
    {
      ghost var k, n := a.state, |a.trace|;
      ghost var id := TableId(families[i], table);
      assert families[i] in families;
      var flushed := FlushTableFamily(a, families[i], table);
      if behind {
        forall j | n <= j < |a.trace| ensures Safe(ch, a.trace[j]) {
          ReadyFlushed(ch, k, a.trace[j], id);
          ReadyIsSafe(ch, a.trace[j]);
        }
        ReadyFlushed(ch, k, a.state, id);
      }
      ok := ok && flushed;
    }
  }

  lemma SafeTableOwned(ch: Change, f: Family)
    requires ch.next.config.families.Has(f)
    ensures OwnedTable(ch.Configs(), TableId(f, ch.next.config.safeTable))
  {
    assert ch.next.config in ch.Configs();
  }

  lemma RefreshSetup(before: KernelState, d: DesiredState, main0: seq<Route>, main: seq<Route>, k: KernelState)
    requires d == Desired(d.config, main0) && Policy.Valid(d.config)
    requires Starts(Attempt(before, Some(d), d.config, [])) && Guarded(Attempt(before, Some(d), d.config, []), k)
    requires Holding(Attempt(before, Some(d), d.config, [])) && Installing(Attempt(before, Some(d), d.config, []), k)
    ensures var ch := Attempt(before, Some(d), d.config, main);
            && Starts(ch) && Ready(ch, k) && Holding(ch)
            && forall f: Family, r | r in ch.NextRules(f) :: r in k.Rules(f)
  {
    hide Starts, Guarded, OldOnly, Installing, Policy.Valid, Desired, CompileRules, Ready, Holding;
    var ch0, ch := Attempt(before, Some(d), d.config, []), Attempt(before, Some(d), d.config, main);
    DesiredConfig(d.config, []);
    DesiredConfig(d.config, main);
    InstallingHasOld(ch0, k);
    InstallingOld(ch0, k);
    assert forall f: Family :: ch0.NextRules(f) == ch.NextRules(f);
    StartsAnySnapshot(before, Some(d), d.config, main);
    SameConfigShape(ch0, ch, k);
    SameConfigOld(ch0, ch, k);
    SameConfigHolding(ch0, ch);
    SameConfigReady(ch, k);
  }

  lemma RefreshDone(ch: Change, d: DesiredState, start: Tables, k: KernelState)
    requires Starts(ch) && Ready(ch, k) && Holding(ch)
    requires forall f: Family, r | r in ch.NextRules(f) :: r in k.Rules(f)
    requires ch.prev == Some(d) && d.config == ch.next.config && d.vpnRoutes == ch.next.vpnRoutes
    requires VpnMatch(ch.before.tables, d) && SafeFlushed(d.config, ch.before.tables, start)
    requires SameTables(k.tables, InstallAll(start, ch.next.safeRoutes))
    ensures Finishing(ch, k)
  {
    hide Starts, Ready, Holding, NewTables, VpnMatch, SafeFlushed, InstallAll;
    RefreshTables(ch, d, start, k.tables);
    RefreshFinishing(ch, k);
  }

  lemma DesiredVpnSame(c: Config, m: seq<Route>, n: seq<Route>)
    ensures Desired(c, m).vpnRoutes == Desired(c, n).vpnRoutes
    ensures Desired(c, m).config == c
  {
  }

  /** What a refresh of `c` leaves behind, whatever the kernel held: the guard's rule is
      gone, the safe tables hold the copies of the snapshot, and nothing else has changed. */
  ghost predicate Refreshed(before: KernelState, c: Config, main: seq<Route>, k: KernelState) {
    && (forall f: Family :: k.Rules(f) == RefreshedRules(before, c, f))
    && SafeReplaced(c, Desired(c, main).safeRoutes, before.tables, k.tables)
  }

  function RefreshedRules(before: KernelState, c: Config, f: Family): seq<Rule> {
    var g := TransitionGuard(c, f);
    if c.families.Has(f) then RemoveRule(AddRule(before.Rules(f), g), g) else before.Rules(f)
  }

  ghost predicate SafeReplaced(c: Config, routes: seq<Route>, ts: Tables, us: Tables) {
    forall id: TableId ::
      TableOf(us, id) == if c.families.Has(id.family) && id.table == c.safeTable
                         then TableOf(InstallAll(map[], routes), id) else TableOf(ts, id)
  }

  /** `x` is the one rule of the family in the list. */
  ghost predicate OnlyOf(gs: seq<Rule>, f: Family, x: Rule) {
    x in gs && x.family == f && forall g | g in gs && g.family == f :: g == x
  }

  lemma {:induction false} GuardByFamily(k: KernelState, gs: seq<Rule>, f: Family, x: Rule)
    requires forall i, j | 0 <= i < j < |gs| :: gs[i] != gs[j]
    ensures (forall g | g in gs :: g.family != f) ==>
              AddedAll(k, gs).Rules(f) == k.Rules(f) && RemovedAll(k, gs).Rules(f) == k.Rules(f)
    ensures OnlyOf(gs, f, x) ==>
              && AddedAll(k, gs).Rules(f) == AddRule(k.Rules(f), x)
              && RemovedAll(k, gs).Rules(f) == RemoveRule(k.Rules(f), x)
  {
    hide AddRule, RemoveRule;
    if gs != [] {
      var init, last := gs[..|gs| - 1], gs[|gs| - 1];
      assert gs == init + [last];
      GuardByFamily(k, init, f, x);
      if OnlyOf(gs, f, x) && last == x {
        assert forall g | g in init :: g != x;
      }
    }
  }

  lemma RefreshedNow(before: KernelState, c: Config, main: seq<Route>, guards: seq<Rule>, k: KernelState,
                     l: KernelState)
    requires (forall g :: g in guards <==> g in GuardSet([c], g.family)) && NoDup(guards)
    requires k == AddedAll(before, guards) && k.tables == before.tables
    requires forall f: Family :: l.Rules(f) == RemovedAll(k, guards).Rules(f)
    requires SafeReplaced(c, Desired(c, main).safeRoutes, k.tables, l.tables)
    ensures Refreshed(before, c, main, l)
  {
    hide Desired, SafeReplaced, AddedAll, RemovedAll, AddRule, RemoveRule;
    forall f: Family ensures l.Rules(f) == RefreshedRules(before, c, f) {
      var g := TransitionGuard(c, f);
      if c.families.Has(f) {
        assert g in GuardSet([c], f);
        assert OnlyOf(guards, f, g);
      }
      GuardByFamily(before, guards, f, g);
      GuardByFamily(k, guards, f, g);
    }
  }

  /** The body shared by Refresh and the route monitor. The guards go in before the
      main table is read. */
  method RefreshLocked(a: Adapter, d: DesiredState, ghost main0: seq<Route>)
    returns (ok: bool, desired: DesiredState, ghost main: seq<Route>)
    requires a.Valid() && Policy.Valid(d.config) && d == Desired(d.config, main0)
    modifies a
    ensures old(a.calls) <= a.calls && (a.NoFailure(old(a.calls), a.calls) ==> ok)
    ensures a.Valid() && old(a.trace) <= a.trace
    ensures Kept([d.config, d.config], old(a.state), a.state)
    ensures NothingNew([d.config, d.config], old(a.state), a.state)
    ensures || BlockedSince(old(a.state), a.trace, |old(a.trace)|)
            || IsSnapshot(old(a.state), d.config.families.ToSeq(), main)
    ensures ok ==> IsSnapshot(old(a.state), d.config.families.ToSeq(), main) && desired == Desired(d.config, main)
    ensures ok ==> Refreshed(old(a.state), d.config, main, a.state)
    ensures MayRefresh(old(a.state), d) ==>
              && SafeSince(Attempt(old(a.state), Some(d), d.config, main), a.trace, |old(a.trace)|)
              && (ok ==> Complete(Attempt(old(a.state), Some(d), d.config, main), a.state))
              && (!ok ==> MayRefresh(a.state, d))
  {
    desired, main := d, [];
    hide Starts, Safe, Guarded, Ready, Finishing, OldOnly, Installing, NewRules, NewTables, Policy.Valid, IsSnapshot;
    hide MayRefresh, Holding, NothingNew, Desired, VpnMatch, SafeFlushed, BlockedSince, OwnedTable, GuardSet, Kept;
    hide Blockers, Refreshed;
    hide AddedAll, RemovedAll, GuardsListed, SafeSince, Complete, WellCompiled;
    ghost var may, ch0 := MayRefresh(a.state, d), Attempt(a.state, Some(d), d.config, []);
    DesiredVpnSame(d.config, [], main0);
    var guards := TransitionGuards([d.config]);
    OneConfigGuards(ch0, d.config, guards);
    OneConfigBlockers(d.config, guards);
    assert ch0.Configs() == [d.config, d.config];
    if may {
      MayRefreshParts(a.state, d);
    }
    ok := InstallGuards(a, ch0, guards);
    if may {
      BlockedIsSafe(ch0, a.trace, |old(a.trace)|);
      GuardsMayRefresh(ch0.before, d, a.state);
    }
    if !ok {
      return;
    }
    ghost var k := a.state;
    var listed, routes := SnapshotMain(a, d.config.families.ToSeq());
    if !listed {
      return false, d, [];
    }
    SnapshotSame(k, ch0.before, d.config.families.ToSeq(), routes);
    main := routes;
    var compiled := CompileDesiredState(d.config, routes);
    desired := compiled.value;
    ghost var ch := Attempt(ch0.before, Some(d), d.config, main);
    DesiredVpnSame(d.config, main, main0);
    OneConfigGuards(ch, d.config, guards);
    assert ch.Configs() == [d.config, d.config];
    if may {
      RefreshSetup(ch0.before, d, main0, main, k);
      BlockedIsSafe(ch, a.trace, |old(a.trace)|);
    }
    DesiredWellCompiled(d.config, routes);
    ghost var n, before := |a.trace|, a.trace;
    ok := RefreshGuarded(a, ch, d, desired, guards);
    KeptTrans([d.config, d.config], ch0.before, k, a.state);
    NothingNewTrans([d.config, d.config], ch0.before, k, a.state);
    if ok {
      RefreshedNow(ch0.before, d.config, main, guards, k, a.state);
    }
    if may {
      assert a.trace[..n] == before;
      SafeSinceMore(ch, a.trace, |old(a.trace)|, n);
    }
  }

  lemma StartsValid(before: KernelState, prev: Option<DesiredState>, c: Config)
    requires Starts(Attempt(before, prev, c, []))
    ensures Policy.Valid(c)
  {
    DesiredConfig(c, []);
    hide StartsFor;
  }

  lemma NowCompiled(ch: Change, main: seq<Route>, main0: seq<Route>)
    requires Policy.Valid(ch.next.config) && ch.next == Desired(ch.next.config, main)
    requires ch.prev.Some? ==>
              Policy.Valid(ch.prev.value.config) && ch.prev.value == Desired(ch.prev.value.config, main0)
    ensures Compiled(ch)
  {
    hide Policy.Valid, Desired, WellCompiled;
    DesiredWellCompiled(ch.next.config, main);
    if ch.prev.Some? {
      DesiredWellCompiled(ch.prev.value.config, main0);
    }
  }

  /** Every valid configuration has a family and so a rule to add. */
  lemma RulesToAdd(ch: Change)
    requires Starts(ch)
    ensures ch.next.rules != []
  {
    var c := ch.next.config;
    var f := if c.families.Has(V4) then V4 else V6;
    assert c.families.Has(f);
    assert CompileRules(c, f)[0] == AppMain(c, f);
    assert AppMain(c, f) in ch.next.rules;
  }

  lemma SafeSelf(ch: Change)
    ensures Safe(ch, ch.before)
  {
  }

  lemma NothingSince(ch: Change, trace: seq<KernelState>)
    ensures SafeSince(ch, trace, |trace|)
  {
  }

  /** Behind the guards of an unchanged configuration, with the VPN tables in place. */
  ghost predicate RefreshReady(ch: Change, d: DesiredState, k: KernelState) {
    && Starts(ch) && Ready(ch, k) && Holding(ch) && k.tables == ch.before.tables && VpnMatch(ch.before.tables, d)
    && (forall f: Family, r | r in ch.NextRules(f) :: r in k.Rules(f))
    && ch.prev == Some(d) && d.vpnRoutes == ch.next.vpnRoutes
  }

  /** The rest of a refresh, behind the guards. */
  method RefreshGuarded(a: Adapter, ghost ch: Change, d: DesiredState, desired: DesiredState, guards: seq<Rule>)
    returns (ok: bool)
    requires a.Valid() && desired == ch.next && d.config == desired.config && ch.prev == Some(d)
    requires WellCompiled(desired) && GuardsListed(ch, guards) && Blockers(ch.Configs(), guards)
    requires forall i, j | 0 <= i < j < |guards| :: guards[i] != guards[j]
    modifies a
    ensures old(a.calls) <= a.calls && (a.NoFailure(old(a.calls), a.calls) ==> ok)
    ensures a.Valid() && old(a.trace) <= a.trace
    ensures Kept(ch.Configs(), old(a.state), a.state) && NothingNew(ch.Configs(), old(a.state), a.state)
    ensures ok ==> forall f: Family :: a.state.Rules(f) == RemovedAll(old(a.state), guards).Rules(f)
    ensures ok ==> SafeReplaced(d.config, desired.safeRoutes, old(a.state).tables, a.state.tables)
    ensures old(RefreshReady(ch, d, a.state)) ==>
              && SafeSince(ch, a.trace, |old(a.trace)|)
              && (ok ==> Complete(ch, a.state)) && (!ok ==> MayRefresh(a.state, d))
  {
    hide Starts, Safe, Ready, Finishing, Holding, NewRules, NewTables;
    hide MayRefresh, VpnMatch, GuardSet, Kept, WellCompiled;
    hide RemovedAll, GuardsListed, Blockers, SafeReplaced, SafeSince, Finishable;
    ghost var ready, n := RefreshReady(ch, d, a.state), |a.trace|;
    ok := ReplaceSafeTable(a, ch, d, desired.safeRoutes);
    if !ok {
      return;
    }
    ghost var k, m := a.state, |a.trace|;
    NoGuardWanted(ch, guards);
    if ready {
      ReadyFinishable(ch, k, desired.rules, guards);
    }
    ghost var before := a.trace;
    ok := RemoveGuards(a, ch, desired.rules, guards);
    KeptTrans(ch.Configs(), old(a.state), k, a.state);
    SameRemoved(old(a.state), k, guards);
    if ready {
      assert a.trace[..m] == before;
      SafeSinceMore(ch, a.trace, n, m);
      FinishingMayRefresh(ch, d, a.state);
    }
  }

  lemma ReadyFinishable(ch: Change, k: KernelState, wanted: seq<Rule>, guards: seq<Rule>)
    requires Starts(ch) && Finishing(ch, k) && Ready(ch, k) && wanted == ch.next.rules && GuardsListed(ch, guards)
    requires forall i, j | 0 <= i < j < |guards| :: guards[i] != guards[j]
    ensures Finishable(ch, k, wanted, guards)
  {
    hide Finishing;
    GuardsThere(ch, k, guards);
  }

  /** Deleting rules does not look at the tables. */
  lemma {:induction false} SameRemoved(k: KernelState, l: KernelState, gs: seq<Rule>)
    requires l.v4 == k.v4 && l.v6 == k.v6
    ensures forall f: Family :: RemovedAll(l, gs).Rules(f) == RemovedAll(k, gs).Rules(f)
  {
    hide RemoveRule;
    if gs != [] {
      SameRemoved(k, l, gs[..|gs| - 1]);
      forall f: Family ensures RemovedAll(l, gs).Rules(f) == RemovedAll(k, gs).Rules(f) {
        assert RemovedAll(l, gs[..|gs| - 1]).Rules(f) == RemovedAll(k, gs[..|gs| - 1]).Rules(f);
      }
    }
  }

  lemma OneConfigGuards(ch: Change, c: Config, guards: seq<Rule>)
    requires ch.prev.Some? && ch.prev.value.config == c && ch.next.config == c
    requires forall g :: g in guards <==> g in GuardSet([c], g.family)
    ensures GuardsListed(ch, guards)
  {
    assert ch.Configs() == [c, c];
  }

  lemma OneConfigBlockers(c: Config, guards: seq<Rule>)
    requires Policy.Valid(c) && forall g :: g in guards <==> g in GuardSet([c], g.family)
    ensures Blockers([c, c], guards)
  {
    hide Policy.Valid;
    GuardsBlock([c, c], guards);
  }

  /** Refresh deletes its guards unconditionally; none of them is a compiled rule. */
  lemma NoGuardWanted(ch: Change, guards: seq<Rule>)
    requires WellCompiled(ch.next) && ch.prev.Some? && ch.prev.value.config == ch.next.config
             && GuardsListed(ch, guards)
    ensures forall g | g in guards :: g !in ch.next.rules
  {
    assert ch.Configs() == [ch.next.config, ch.next.config];
    forall g | g in guards ensures g !in ch.next.rules {
      CompiledRuleShape(ch.next.config, g.family);
    }
  }

  lemma SafeFlushedAfter(c: Config, before: Tables, k: Tables, start: Tables)
    requires k == before
    requires forall f | f in c.families.ToSeq() :: TableOf(start, TableId(f, c.safeTable)) == map[]
    requires forall id: TableId | id.table != c.safeTable || id.family !in c.families.ToSeq() ::
               TableOf(start, id) == TableOf(k, id)
    ensures SafeFlushed(c, before, start)
  {
    forall id: TableId
      ensures TableOf(start, id) ==
              if c.families.Has(id.family) && id.table == c.safeTable then map[] else TableOf(before, id)
    {
      FamiliesMembers(c.families, id.family);
      if c.families.Has(id.family) && id.table == c.safeTable {
        assert id == TableId(id.family, c.safeTable);
      }
    }
  }

  lemma MayRefreshParts(k: KernelState, d: DesiredState)
    requires MayRefresh(k, d)
    ensures Starts(Attempt(k, Some(d), d.config, [])) && Holding(Attempt(k, Some(d), d.config, []))
    ensures VpnMatch(k.tables, d)
  {
  }

  lemma SafeRoutesElsewhere(ch: Change, ts: Tables, us: Tables)
    requires WellCompiled(ch.next)
    requires forall id: TableId | (forall r | r in ch.next.safeRoutes :: IdOf(r) != id) ::
               TableOf(us, id) == TableOf(ts, id)
    ensures forall id: TableId | id.table != ch.next.config.safeTable || !ch.next.config.families.Has(id.family) ::
              TableOf(us, id) == TableOf(ts, id)
  {
    hide Policy.Valid;
  }

  /** Whatever a failed refresh left in the safe table, the next refresh may start. */
  lemma SafeTableMayRefresh(ch: Change, d: DesiredState, k: KernelState, l: KernelState)
    requires Starts(ch) && ch.prev == Some(d) && d.config == ch.next.config && Holding(ch)
    requires Ready(ch, l) && l.v4 == k.v4 && l.v6 == k.v6
    requires forall f: Family, r | r in ch.NextRules(f) :: r in k.Rules(f)
    requires VpnMatch(k.tables, d)
    requires forall id: TableId | id.table != d.config.safeTable :: TableOf(l.tables, id) == TableOf(k.tables, id)
    ensures MayRefresh(l, d)
  {
    hide ShapedFor, OldOnly, MayRefresh, Holding;
    VpnKept(ch, d, k.tables, l.tables);
    hide VpnMatch;
    hide Starts;
    OldMayRefresh(ch, d, l);
  }

  lemma VpnKept(ch: Change, d: DesiredState, ts: Tables, us: Tables)
    requires Starts(ch) && d.config == ch.next.config && VpnMatch(ts, d)
    requires forall id: TableId | id.table != d.config.safeTable :: TableOf(us, id) == TableOf(ts, id)
    ensures VpnMatch(us, d)
  {
    hide StartsFor, OwnedTable;
    assert Policy.Valid(ch.next.config);
    assert d.config.vpnTable != d.config.safeTable;
  }

  lemma SafeReplacedNow(c: Config, routes: seq<Route>, before: Tables, start: Tables, ts: Tables)
    requires SafeFlushed(c, before, start) && SameTables(ts, InstallAll(start, routes))
    requires forall r | r in routes :: c.families.Has(r.family) && r.table == c.safeTable
    ensures SafeReplaced(c, routes, before, ts)
  {
    forall id: TableId
      ensures TableOf(ts, id) == if c.families.Has(id.family) && id.table == c.safeTable
                                 then TableOf(InstallAll(map[], routes), id) else TableOf(before, id)
    {
      if c.families.Has(id.family) && id.table == c.safeTable {
        InstallById(start, map[], routes, id);
      } else {
        InstallFrame(start, routes, id);
      }
    }
  }

  /** Only tables that the configurations own have changed. */
  lemma TablesKept(cs: seq<Config>, before: KernelState, k: KernelState)
    requires k.v4 == before.v4 && k.v6 == before.v6
    requires forall id: TableId | !OwnedTable(cs, id) :: TableOf(k.tables, id) == TableOf(before.tables, id)
    ensures Kept(cs, before, k)
  {
  }

  lemma OwnSafeTable(ch: Change, before: Tables, ts: Tables)
    requires forall id: TableId | id.table != ch.next.config.safeTable || !ch.next.config.families.Has(id.family) ::
               TableOf(ts, id) == TableOf(before, id)
    ensures forall id: TableId | !OwnedTable(ch.Configs(), id) :: TableOf(ts, id) == TableOf(before, id)
  {
    forall id: TableId | !OwnedTable(ch.Configs(), id) ensures TableOf(ts, id) == TableOf(before, id) {
      if ch.next.config.families.Has(id.family) && id.table == ch.next.config.safeTable {
        SafeTableOwned(ch, id.family);
      }
    }
  }

  method ReplaceSafeTable(a: Adapter, ghost ch: Change, d: DesiredState, routes: seq<Route>) returns (ok: bool)
    requires a.Valid() && routes == ch.next.safeRoutes && d.config == ch.next.config && WellCompiled(ch.next)
    modifies a
    ensures old(a.calls) <= a.calls && (a.NoFailure(old(a.calls), a.calls) ==> ok)
    ensures a.Valid() && old(a.trace) <= a.trace
    ensures a.state.v4 == old(a.state).v4 && a.state.v6 == old(a.state).v6 && Kept(ch.Configs(), old(a.state), a.state)
    ensures ok ==> SafeReplaced(d.config, routes, old(a.state).tables, a.state.tables)
    ensures old(RefreshReady(ch, d, a.state)) ==>
              && SafeSince(ch, a.trace, |old(a.trace)|) && Ready(ch, a.state)
              && (ok ==> Finishing(ch, a.state)) && (!ok ==> MayRefresh(a.state, d))
  {
    hide Starts, Safe, Ready, Finishing, Holding, VpnMatch, SafeFlushed, MayRefresh, Policy.Valid, Kept, SafeReplaced;
    hide SafeSince, OwnedTable, StartsFor;
    ghost var ready, n := RefreshReady(ch, d, a.state), |a.trace|;
    var families := d.config.families.ToSeq();
    FamiliesMembers(d.config.families, V4);
    FamiliesMembers(d.config.families, V6);
    forall f | f in families ensures OwnedTable(ch.Configs(), TableId(f, d.config.safeTable)) {
      SafeTableOwned(ch, f);
    }
    ok := FlushTable(a, ch, families, d.config.safeTable);
    OwnSafeTable(ch, old(a.state).tables, a.state.tables);
    TablesKept(ch.Configs(), old(a.state), a.state);
    if ready {
      SafeTableMayRefresh(ch, d, old(a.state), a.state);
    }
    if !ok {
      return;
    }
    ghost var k, m, before := a.state, |a.trace|, a.trace;
    SafeFlushedAfter(d.config, old(a.state).tables, old(a.state).tables, k.tables);
    forall r | r in routes ensures OwnedTable(ch.Configs(), IdOf(r)) {
      SafeTableOwned(ch, r.family);
    }
    ok := InstallRoutes(a, ch, routes, k.tables);
    SafeRoutesElsewhere(ch, k.tables, a.state.tables);
    OwnSafeTable(ch, old(a.state).tables, a.state.tables);
    TablesKept(ch.Configs(), old(a.state), a.state);
    if ready {
      SafeTableMayRefresh(ch, d, old(a.state), a.state);
      assert a.trace[..m] == before;
      SafeSinceMore(ch, a.trace, n, m);
    }
    if !ok {
      return;
    }
    SafeReplacedNow(d.config, routes, old(a.state).tables, k.tables, a.state.tables);
    if ready {
      RefreshDone(ch, d, k.tables, a.state);
    }
  }

  lemma SnapshotSame(k: KernelState, l: KernelState, fs: seq<Family>, main: seq<Route>)
    requires k.tables == l.tables && IsSnapshot(k, fs, main)
    ensures IsSnapshot(l, fs, main)
  {
    assert forall f: Family, key :: InMain(k, f, key) <==> InMain(l, f, key);
  }

  /******* Afterwards *******/

  /** The kernel is what the manager applied, possibly with guards left by a pending
      route change. */
  ghost predicate MayRefresh(k: KernelState, d: DesiredState) {
    var ch := Attempt(k, Some(d), d.config, []);
    Starts(ch) && Holding(ch) && VpnMatch(k.tables, d)
  }

  lemma SlotsFree(ch: Change, f: Family)
    requires ch.prev.Some? && ch.prev.value.config == ch.next.config
    ensures OldSlotsFirst(ch, f, ch.before.Rules(f))
  {
    forall r, g | r in ch.PrevRules(f) && g in ch.Guards(f) ensures r.priority != g.priority {
      SlotFree(ch, f, r, g);
    }
  }

  lemma NextRuleInScope(ch: Change, dh: Change, f: Family, r: Rule)
    requires Starts(ch) && dh.next.config == ch.next.config
    ensures r in ch.NextRules(f) ==> dh.Owned(f).Has(r.priority)
  {
    CompiledRuleShape(ch.next.config, f);
    ScopeHas(dh.Configs(), f, r.priority);
    assert dh.next.config in dh.Configs();
  }

  /** A foreign rule of the start looks up none of the new policy's tables. */
  lemma ForeignLookup(ch: Change, f: Family, r: Rule)
    requires StartsFor(ch, f) && r in ch.before.Rules(f) && !ch.Owned(f).Has(r.priority) && r.action.Lookup?
    ensures !OwnedTable([ch.next.config, ch.next.config], TableId(f, r.table))
  {
    assert !OwnedTable(ch.Configs(), TableId(f, r.table));
    assert ch.next.config in ch.Configs();
  }

  lemma CompleteHolding(ch: Change, dh: Change, f: Family)
    requires Starts(ch) && StartsFor(ch, f) && dh.before.Rules(f) == NewRules(ch, f)
    requires dh.prev == Some(ch.next) && dh.next.config == ch.next.config
    ensures HoldingFor(dh, f)
  {
    NewRulesFacts(ch, f);
    hide Starts, StartsFor, CompileRules, NewRules, Scope, GuardSet, Inside, Outside, Kernel.Sorted, NoDup;
    assert dh.PrevRules(f) == ch.NextRules(f);
    forall r | r in dh.before.Rules(f) && dh.Owned(f).Has(r.priority) ensures r in dh.PrevRules(f) {
      NextScope(ch, dh, f, r.priority);
    }
  }

  lemma NextScope(ch: Change, dh: Change, f: Family, p: int)
    requires dh.prev == Some(ch.next) && dh.next.config == ch.next.config && dh.Owned(f).Has(p)
    ensures ch.Owned(f).Has(p)
  {
    hide Scope;
    assert dh.Configs() == [ch.next.config, ch.next.config] && ch.next.config in ch.Configs();
    ScopeHas(dh.Configs(), f, p);
    ScopeHas(ch.Configs(), f, p);
  }

  lemma CompleteStartsFor(ch: Change, k: KernelState, dh: Change, f: Family)
    requires Starts(ch) && StartsFor(ch, f) && k.Rules(f) == NewRules(ch, f)
    requires dh.before == k && dh.prev == Some(ch.next) && dh.next.config == ch.next.config
    ensures StartsFor(dh, f) && HoldingFor(dh, f)
  {
    NewRulesFacts(ch, f);
    CompleteHolding(ch, dh, f);
    CompiledRuleShape(ch.next.config, f);
    assert forall r | r in ch.before.Rules(f) :: r.family == f;
    hide Starts, StartsFor, HoldingFor, CompileRules, NewRules, Scope, OwnedTable;
    assert dh.Configs() == [ch.next.config, ch.next.config];
    forall r | r in k.Rules(f) && !dh.Owned(f).Has(r.priority) && r.action.Lookup?
      ensures !OwnedTable(dh.Configs(), TableId(f, r.table))
    {
      NextRuleInScope(ch, dh, f, r);
      ForeignLookup(ch, f, r);
    }
    HoldingStarts(dh, f);
  }

  lemma MayRefreshStarts(k: KernelState, d: DesiredState, main: seq<Route>)
    requires MayRefresh(k, d) && Policy.Valid(d.config)
    ensures Starts(Attempt(k, Some(d), d.config, main))
  {
    hide Starts, VpnMatch, Holding;
    StartsAnySnapshot(k, Some(d), d.config, main);
  }

  /** After a complete change the kernel is ready for the next refresh. */
  lemma CompleteMayRefresh(ch: Change, k: KernelState)
    requires Starts(ch) && Complete(ch, k)
    ensures MayRefresh(k, ch.next)
  {
    var dh := Attempt(k, Some(ch.next), ch.next.config, []);
    DesiredConfig(ch.next.config, []);
    DesiredWellCompiled(ch.next.config, []);
    NewTablesMatch(ch, k.tables);
    TablesMatchVpn(k.tables, ch.next);
    CompleteStartsFor(ch, k, dh, V4);
    CompleteStartsFor(ch, k, dh, V6);
  }

  lemma CompleteRulesExact(ch: Change, k: KernelState, f: Family)
    requires Starts(ch) && Complete(ch, k)
    ensures Inside(ch.Owned(f), k.Rules(f)) == ch.NextRules(f)
    ensures Outside(ch.Owned(f), k.Rules(f)) == Outside(ch.Owned(f), ch.before.Rules(f))
  {
    StartsBoth(ch, f);
    NewRulesFacts(ch, f);
  }

  /** A complete change leaves every owned block equal to the compiled rules and every
      owned table equal to the compiled routes, under the old scope and the new one,
      and everything else as it was. */
  lemma CompleteIsExact(ch: Change, k: KernelState)
    requires Starts(ch) && Complete(ch, k)
    ensures forall f: Family ::
              && Inside(ch.Owned(f), k.Rules(f)) == ch.NextRules(f)
              && Outside(ch.Owned(f), k.Rules(f)) == Outside(ch.Owned(f), ch.before.Rules(f))
    ensures forall id: TableId | OwnedTable(ch.Configs(), id) ::
              TableOf(k.tables, id) == TableOf(InstallAll(InstallAll(map[], ch.next.vpnRoutes), ch.next.safeRoutes), id)
    ensures ForeignTablesKept(ch, k.tables)
  {
    hide Starts, NewRules, NewTables, Inside, Outside, Scope, InstallAll, OwnedTable;
    CompleteRulesExact(ch, k, V4);
    CompleteRulesExact(ch, k, V6);
    NewTablesForeign(ch);
    forall id: TableId | OwnedTable(ch.Configs(), id)
      ensures TableOf(k.tables, id) == TableOf(InstallAll(InstallAll(map[], ch.next.vpnRoutes), ch.next.safeRoutes), id)
    {
      OwnedTableExact(ch, id);
    }
  }

  lemma OwnedTableExact(ch: Change, id: TableId)
    requires OwnedTable(ch.Configs(), id)
    ensures TableOf(NewTables(ch), id) ==
              TableOf(InstallAll(InstallAll(map[], ch.next.vpnRoutes), ch.next.safeRoutes), id)
  {
    var flushed := Flushed(ch.Configs(), ch.before.tables);
    assert TableOf(flushed, id) == map[];
    hide InstallAll, OwnedTable;
    InstallById(flushed, map[], ch.next.vpnRoutes, id);
    InstallById(InstallAll(flushed, ch.next.vpnRoutes), InstallAll(map[], ch.next.vpnRoutes), ch.next.safeRoutes, id);
  }

  /** With one configuration: foreign rules untouched, every compiled rule there, and
      inside the block nothing else than guards. */
  ghost predicate KeptFor(ch: Change, f: Family, rs: seq<Rule>) {
    && Kernel.Sorted(rs) && NoDup(rs)
    && Outside(ch.Owned(f), rs) == Outside(ch.Owned(f), ch.before.Rules(f))
    && (forall r | r in ch.NextRules(f) :: r in rs)
    && (forall r | r in rs && ch.Owned(f).Has(r.priority) :: r in ch.NextRules(f) || r in ch.Guards(f))
  }

  /** A list that holds the policy, with nothing foreign in its tables, is one to start from. */
  lemma HoldingStarts(ch: Change, f: Family)
    requires ch.prev.Some? && ch.prev.value.config == ch.next.config && HoldingFor(ch, f)
    requires Kernel.Sorted(ch.before.Rules(f)) && NoDup(ch.before.Rules(f))
    requires forall r | r in ch.before.Rules(f) :: r.family == f
    requires forall r | r in ch.before.Rules(f) && !ch.Owned(f).Has(r.priority) && r.action.Lookup? ::
               !OwnedTable(ch.Configs(), TableId(f, r.table))
    ensures StartsFor(ch, f)
  {
    SlotsFree(ch, f);
    hide CompileRules, Scope, OldSlotsFirst, Kernel.Sorted, NoDup, OwnedTable, GuardSet;
  }

  lemma KeptHolding(ch: Change, k: KernelState, dh: Change, f: Family)
    requires KeptFor(ch, f, k.Rules(f)) && ch.prev.Some? && ch.prev.value.config == ch.next.config
    requires dh.before == k && dh.prev == ch.prev && dh.next.config == ch.next.config
    ensures HoldingFor(dh, f) && dh.Configs() == ch.Configs()
  {
    hide CompileRules, Scope, GuardSet, Outside;
    assert dh.Configs() == ch.Configs() && ch.PrevRules(f) == ch.NextRules(f) == dh.PrevRules(f);
    assert dh.Owned(f) == ch.Owned(f) && dh.Guards(f) == ch.Guards(f);
  }

  lemma KeptStartsFor(ch: Change, k: KernelState, dh: Change, f: Family)
    requires Starts(ch) && StartsFor(ch, f) && KeptFor(ch, f, k.Rules(f))
    requires ch.prev.Some? && ch.prev.value.config == ch.next.config
    requires dh.before == k && dh.prev == ch.prev && dh.next.config == ch.next.config
    ensures StartsFor(dh, f) && HoldingFor(dh, f)
  {
    hide Starts, CompileRules, Scope, GuardSet, Outside, OwnedTable;
    KeptHolding(ch, k, dh, f);
    SplitMembers(ch.Owned(f), k.Rules(f));
    SplitMembers(ch.Owned(f), ch.before.Rules(f));
    forall r | r in k.Rules(f) && !ch.Owned(f).Has(r.priority) ensures r in ch.before.Rules(f) {
      assert r in Outside(ch.Owned(f), k.Rules(f));
    }
    forall r | r in k.Rules(f) && ch.Owned(f).Has(r.priority) ensures r.family == f {
      if r in ch.NextRules(f) { RuleOwned(ch, f, r); } else { GuardFacts(ch, f, r); }
    }
    hide StartsFor;
    HoldingStarts(dh, f);
  }

  lemma KeptMayRefresh(ch: Change, d: DesiredState, k: KernelState)
    requires Starts(ch) && ch.prev == Some(d) && ch.next.config == d.config && VpnMatch(k.tables, d)
    requires KeptFor(ch, V4, k.v4) && KeptFor(ch, V6, k.v6)
    ensures MayRefresh(k, d)
  {
    hide StartsFor, HoldingFor, KeptFor, Desired, WellCompiled, VpnMatch;
    DesiredConfig(d.config, []);
    StartsWell(ch);
    DesiredWellCompiled(d.config, []);
    var dh := Attempt(k, Some(d), d.config, []);
    KeptStartsFor(ch, k, dh, V4);
    KeptStartsFor(ch, k, dh, V6);
  }

  lemma StartsWell(ch: Change)
    requires Starts(ch)
    ensures Policy.Valid(ch.next.config)
  {
    hide StartsFor;
  }

  lemma OldKept(ch: Change, f: Family, rs: seq<Rule>)
    requires ShapedFor(ch, f, rs) && OldOnlyFor(ch, f, rs) && HoldingFor(ch, f)
    requires ch.prev.Some? && ch.prev.value.config == ch.next.config
    requires forall r | r in ch.NextRules(f) :: r in rs
    ensures KeptFor(ch, f, rs)
  {
  }

  lemma OldMayRefresh(ch: Change, d: DesiredState, k: KernelState)
    requires Starts(ch) && ch.prev == Some(d) && ch.next.config == d.config && VpnMatch(k.tables, d)
    requires Shaped(ch, k) && OldOnly(ch, k) && Holding(ch)
    requires forall f: Family, r | r in ch.NextRules(f) :: r in k.Rules(f)
    ensures MayRefresh(k, d)
  {
    hide Starts, ShapedFor, OldOnlyFor, HoldingFor, KeptFor, MayRefresh, VpnMatch;
    assert forall r | r in ch.NextRules(V4) :: r in k.Rules(V4);
    assert forall r | r in ch.NextRules(V6) :: r in k.Rules(V6);
    OldKept(ch, V4, k.v4);
    OldKept(ch, V6, k.v6);
    KeptMayRefresh(ch, d, k);
  }

  /** Guards added for a pending route change do not spoil the next refresh. */
  lemma GuardsMayRefresh(before: KernelState, d: DesiredState, k: KernelState)
    requires MayRefresh(before, d)
    requires Installing(Attempt(before, Some(d), d.config, []), k)
    ensures MayRefresh(k, d)
  {
    hide Starts, ShapedFor, OldOnly, Holding, VpnMatch, Desired, Without;
    var ch := Attempt(before, Some(d), d.config, []);
    DesiredConfig(d.config, []);
    InstallingHasOld(ch, k);
    InstallingOld(ch, k);
    OldMayRefresh(ch, d, k);
  }

  lemma FinishingKept(ch: Change, f: Family, rs: seq<Rule>)
    requires FinishingFor(ch, f, rs)
    ensures KeptFor(ch, f, rs)
  {
  }

  /** A refresh that fails while it removes its guards can be repeated. */
  lemma FinishingMayRefresh(ch: Change, d: DesiredState, k: KernelState)
    requires Starts(ch) && ch.prev == Some(d) && ch.next.config == d.config && ch.next.vpnRoutes == d.vpnRoutes
    requires Finishing(ch, k)
    ensures MayRefresh(k, d)
  {
    hide StartsFor, KeptFor, FinishingFor, MayRefresh, NewTables, TablesMatch, InstallAll;
    FinishingKept(ch, V4, k.v4);
    FinishingKept(ch, V6, k.v6);
    NewTablesMatch(ch, k.tables);
    TablesMatchVpn(k.tables, ch.next);
    assert VpnMatch(k.tables, d);
    KeptMayRefresh(ch, d, k);
  }

  method SnapshotMain(a: Adapter, families: seq<Family>) returns (ok: bool, main: seq<Route>)
    requires a.Valid()
    modifies a
    ensures old(a.calls) <= a.calls && (a.NoFailure(old(a.calls), a.calls) ==> ok)
    ensures a.Valid() && a.state == old(a.state) && a.trace == old(a.trace)
    ensures ok ==> IsSnapshot(a.state, families, main)
  {
    main := [];
    for i := 0 to |families|
      invariant old(a.calls) <= a.calls
      invariant a.Valid() && a.state == old(a.state) && a.trace == old(a.trace)
      invariant IsSnapshot(a.state, families[..i], main)
    {
      var listed, routes := a.ListRoutes(families[i], RT_TABLE_MAIN);
      if !listed {
        return false, [];
      }
      SnapshotStep(a.state, families, i, main, routes);
      main := main + routes;
    }
    assert families[..|families|] == families;
    return true, main;
  }

  lemma OwnGuards(c: Config, guards: seq<Rule>, k: KernelState)
    requires forall g :: g in guards <==> g in GuardSet([c], g.family)
    requires forall g | g in guards :: g in k.Rules(g.family)
    ensures forall f: Family | c.families.Has(f) :: TransitionGuard(c, f) in k.Rules(f)
  {
    forall f: Family | c.families.Has(f) ensures TransitionGuard(c, f) in k.Rules(f) {
      assert TransitionGuard(c, f) in GuardSet([c], f);
    }
  }

  /** Removing the only rule inside the blocks leaves the rules outside them. */
  lemma AloneRemoved(s: Selection, rs: seq<Rule>, g: Rule)
    requires NoDup(rs) && g in rs && s.Has(g.priority) && forall x | x in rs && s.Has(x.priority) :: x == g
    ensures RemoveRule(rs, g) == Outside(s, rs)
  {
    hide Selection.Has, RemoveRule, Outside;
    OnlyAtIsFirst(rs, g);
    SpecMatchesItself(g);
    RemoveFirstAt(rs, g, g);
    OutsideRemove(s, rs, g);
    OutsideOfNothing(s, RemoveRule(rs, g));
  }

  lemma OnlyGuard(ch: Change, k: KernelState, f: Family)
    requires GuardsOnly(ch, k) && ch.prev.Some? && ch.prev.value.config.families.Has(f)
    requires ch.prev.value.config.base == ch.next.config.base
    ensures forall x | x in k.Rules(f) && ch.Owned(f).Has(x.priority) :: x == TransitionGuard(ch.prev.value.config, f)
  {
  }

  lemma NoRulesNoRefresh(ch: Change, k: KernelState, f: Family)
    requires Starts(ch) && GuardsOnly(ch, k) && ch.prev.Some? && ch.prev.value.config.families.Has(f)
    requires ch.prev.value.config.base == ch.next.config.base
    ensures !MayRefresh(k, ch.prev.value)
  {
    var c := ch.prev.value.config;
    var dh, r := Attempt(k, ch.prev, c, []), AppMain(c, f);
    assert CompileRules(c, f)[0] == r;
    assert r in dh.PrevRules(f) && r in ch.PrevRules(f);
    RuleOwned(ch, f, r);
    OnlyGuard(ch, k, f);
    CompiledRuleShape(c, f);
    hide CompileRules, GuardsOnly, Starts;
    assert !HoldingFor(dh, f);
  }

  /** Where a failed Apply stops with nothing but guards in the blocks, a refresh of the old
      policy deletes the guard and leaves the foreign rules alone to decide. */
  lemma RefreshOpensGuardsOnly(ch: Change, k: KernelState, f: Family)
    requires Starts(ch) && Ready(ch, k) && GuardsOnly(ch, k) && ch.prev.Some?
    requires ch.prev.value.config.families.Has(f) && ch.prev.value.config.base == ch.next.config.base
    ensures !MayRefresh(k, ch.prev.value)
    ensures RefreshedRules(k, ch.prev.value.config, f) == Outside(ch.Owned(f), ch.before.Rules(f))
  {
    var c := ch.prev.value.config;
    NoRulesNoRefresh(ch, k, f);
    OnlyGuard(ch, k, f);
    assert c in ch.Configs() && TransitionGuard(c, f) in ch.Guards(f);
    GuardFacts(ch, f, TransitionGuard(c, f));
    hide Starts, GuardsOnly, MayRefresh, Outside, RemoveRule, Scope;
    ShapedBoth(ch, k, f);
    assert f == V4 || f == V6;
    AloneRemoved(ch.Owned(f), k.Rules(f), TransitionGuard(c, f));
  }

  /******* Rollback *******/

  ghost predicate RulesGone(cs: seq<Config>, k: KernelState) {
    forall f: Family :: Inside(Scope(cs, f), k.Rules(f)) == []
  }

  lemma EmptyWhenNoMember(rs: seq<Rule>)
    ensures rs == [] || exists r :: r in rs
  {
    if rs != [] {
      assert rs[0] in rs;
    }
  }

  lemma ScopesGone(cs: seq<Config>, scopes: seq<RuleScope>, k: KernelState)
    requires ScopesOf(cs, scopes) && forall s | s in scopes :: ScopeClear(k, s, [])
    ensures RulesGone(cs, k)
  {
    forall f: Family ensures Inside(Scope(cs, f), k.Rules(f)) == [] {
      SplitMembers(Scope(cs, f), k.Rules(f));
      forall x | x in k.Rules(f) ensures !Scope(cs, f).Has(x.priority) {
        if Scope(cs, f).Has(x.priority) {
          ScopeNotClear(cs, scopes, k, f, x);
        }
      }
      EmptyWhenNoMember(Inside(Scope(cs, f), k.Rules(f)));
    }
  }

  lemma ScopeNotClear(cs: seq<Config>, scopes: seq<RuleScope>, k: KernelState, f: Family, x: Rule)
    requires ScopesOf(cs, scopes) && x in k.Rules(f) && Scope(cs, f).Has(x.priority)
    ensures exists s :: s in scopes && !ScopeClear(k, s, [])
  {
    ScopeHas(cs, f, x.priority);
    var c :| c in cs && c.families.Has(f) && c.base <= x.priority < c.base + c.span;
    assert HasScope(scopes, f, c.base, c.span);
    var s :| s in scopes && s.family == f && s.config.base == c.base && s.config.span == c.span;
    assert Dooms(s.config, [], x) && !ScopeClear(k, s, []);
  }

  method RollbackRules(a: Adapter, cs: seq<Config>, scopes: seq<RuleScope>) returns (ok: bool)
    requires a.Valid() && OwnFamilies(a.state) && ScopesOf(cs, scopes)
    modifies a
    ensures a.Valid() && OwnFamilies(a.state) && old(a.trace) <= a.trace && old(a.calls) <= a.calls
    ensures Kept(cs, old(a.state), a.state) && Fewer(old(a.state), a.state)
    ensures ok ==> RulesGone(cs, a.state)
    ensures a.NoFailure(old(a.calls), a.calls) ==> ok
  {
    hide Kept, Pruned, ScopeClear, RulesGone, BlockOf, Spared, Dooms, Fewer;
    ok := true;
    KeptSelf(cs, a.state);
    FewerSelf(a.state);
    assert Plain([]);
    for i := 0 to |scopes|
      invariant a.Valid() && OwnFamilies(a.state) && old(a.trace) <= a.trace && old(a.calls) <= a.calls
      invariant Kept(cs, old(a.state), a.state) && Fewer(old(a.state), a.state)
      invariant ok ==> forall j | 0 <= j < i :: ScopeClear(a.state, scopes[j], [])
      invariant a.NoFailure(old(a.calls), a.calls) ==> ok
    {
      var s := scopes[i];
      assert s in scopes;
      ghost var k := a.state;
      var pruned := DeleteOwnedRules(a, s.config, s.family, []);
      PrunedKept(cs, k, a.state, s);
      KeptTrans(cs, old(a.state), k, a.state);
      FewerPruned(old(a.state), k, a.state, s.family, BlockOf(s.config));
      ok := ok && pruned;
      if ok {
        forall j | 0 <= j < i ensures ScopeClear(a.state, scopes[j], []) {
          ScopeStaysClear(k, a.state, s.family, BlockOf(s.config), scopes[j], []);
        }
        ScopeIsClear(a.state, s, []);
      }
    }
    if ok {
      ScopesGone(cs, scopes, a.state);
    }
  }

  lemma FewerSelf(k: KernelState)
    ensures Fewer(k, k)
  {
    PartSelf(k.v4);
    PartSelf(k.v6);
  }

  lemma FewerPruned(before: KernelState, k: KernelState, l: KernelState, f: Family, s: Selection)
    requires Fewer(before, k) && Pruned(k, l, f, s)
    ensures Fewer(before, l)
  {
    hide Part, Outside;
    PartTrans(l.Rules(f), k.Rules(f), before.Rules(f));
    if f.V4? {
      assert l.Rules(V6) == k.Rules(V6);
    } else {
      assert l.Rules(V4) == k.Rules(V4);
    }
  }

  method RollbackTables(a: Adapter, cs: seq<Config>, targets: seq<TableId>) returns (ok: bool)
    requires a.Valid() && OwnFamilies(a.state) && forall id: TableId :: id in targets <==> OwnedTable(cs, id)
    modifies a
    ensures a.Valid() && OwnFamilies(a.state) && old(a.trace) <= a.trace && old(a.calls) <= a.calls
    ensures a.state.v4 == old(a.state).v4 && a.state.v6 == old(a.state).v6
    ensures Kept(cs, old(a.state), a.state)
    ensures ok ==> forall id: TableId | OwnedTable(cs, id) :: TableOf(a.state.tables, id) == map[]
    ensures a.NoFailure(old(a.calls), a.calls) ==> ok
  {
    hide Kept, OwnedTable;
    ok := true;
    KeptSelf(cs, a.state);
    for i := 0 to |targets|
      invariant a.Valid() && OwnFamilies(a.state) && old(a.trace) <= a.trace && old(a.calls) <= a.calls
      invariant a.state.v4 == old(a.state).v4 && a.state.v6 == old(a.state).v6
      invariant Kept(cs, old(a.state), a.state)
      invariant ok ==> forall j | 0 <= j < i :: TableOf(a.state.tables, targets[j]) == map[]
      invariant a.NoFailure(old(a.calls), a.calls) ==> ok
    {
      ghost var k := a.state;
      assert targets[i] in targets;
      var flushed := FlushTableFamily(a, targets[i].family, targets[i].table);
      OnlyTableKept(cs, k, a.state, targets[i]);
      KeptTrans(cs, old(a.state), k, a.state);
      ok := ok && flushed;
    }
  }

  lemma AllGone(cs: seq<Config>, k: KernelState, l: KernelState)
    requires RulesGone(cs, k) && l.v4 == k.v4 && l.v6 == k.v6
    requires forall id: TableId | OwnedTable(cs, id) :: TableOf(l.tables, id) == map[]
    ensures OwnedEmpty(cs, l)
  {
    assert Inside(Scope(cs, V4), k.Rules(V4)) == [] && Inside(Scope(cs, V6), k.Rules(V6)) == [];
  }

  class Manager {
    const adapter: Adapter
    var closed: bool
    var applied: Option<DesiredState>
    ghost var appliedMain: seq<Route>

    constructor (adapter: Adapter)
      requires adapter.Valid()
      ensures Inv() && this.adapter == adapter && applied == None && !closed
    {
      this.adapter := adapter;
      closed := false;
      applied := None;
      appliedMain := [];
    }

    ghost predicate Inv()
      reads this, adapter
    {
      && adapter.Valid()
      && (applied.Some? ==>
            Policy.Valid(applied.value.config) && applied.value == Desired(applied.value.config, appliedMain))
    }

    /** Stops the manager; the kernel keeps what it holds. */
    method Close()
      requires Inv()
      modifies this`closed
      ensures Inv() && closed
    {
      closed := true;
    }

    /** Fail-closed reconciliation, from any kernel. Nothing foreign ever changes. Where the
        change may start, every kernel state on the way, whichever call fails, sends each
        packet nowhere, where it went when the call began, or where the new policy does, as
        compiled from the main table of that moment. */
    method Apply(config: Config) returns (ok: bool, ghost main: seq<Route>, ghost rulesAt: nat)
      requires Inv() && OwnFamilies(adapter.state)
      modifies this, adapter
      ensures old(adapter.calls) <= adapter.calls && old(adapter.calls) <= rulesAt
      ensures !closed && Policy.Valid(config) && config.tunIndex in adapter.links ==>
                adapter.NoFailure(old(adapter.calls), adapter.calls) ==> ok
      ensures Inv() && closed == old(closed) && old(adapter.trace) <= adapter.trace
      ensures Kept(RollbackConfigs(config, old(applied)), old(adapter.state), adapter.state)
      ensures ok ==> !closed && Policy.Valid(config) && config.tunIndex in adapter.links
      ensures closed || !Policy.Valid(config) || config.tunIndex !in adapter.links ==>
                adapter.state == old(adapter.state) && adapter.trace == old(adapter.trace)
      ensures || (adapter.trace == old(adapter.trace) && adapter.state == old(adapter.state))
              || IsSnapshot(old(adapter.state), config.families.ToSeq(), main)
      ensures ok ==> IsSnapshot(old(adapter.state), config.families.ToSeq(), main)
      ensures ok ==> applied == Some(Desired(config, main))
      ensures !ok ==> applied == old(applied)
      ensures Starts(Attempt(old(adapter.state), old(applied), config, [])) ==>
                var ch := Attempt(old(adapter.state), old(applied), config, main);
                && SafeSince(ch, adapter.trace, |old(adapter.trace)|)
                && Safe(ch, adapter.state) && Shaped(ch, adapter.state)
                && (ok ==> Complete(ch, adapter.state) && MayRefresh(adapter.state, applied.value))
                && (!closed && config.tunIndex in adapter.links ==>
                      adapter.NoFailure(old(adapter.calls), rulesAt) && adapter.fails(rulesAt) ==>
                      !ok && Ready(ch, adapter.state) && Bare(ch, adapter.state))
    {
      hide Starts, Safe, NewRules, NewTables, Desired, Policy.Valid, MayRefresh, Kept, Shaped, SafeSince;
      hide Ready, Bare, SameTables, OwnFamilies, Compiled, IsSnapshot;
      main, rulesAt := [], adapter.calls;
      ghost var ch := Attempt(adapter.state, applied, config, []);
      ghost var starts := Starts(ch);
      KeptSelf(RollbackConfigs(config, applied), adapter.state);
      NothingSince(ch, adapter.trace);
      SafeSelf(ch);
      if starts {
        StartShaped(ch);
      }
      if closed {
        return false, [], adapter.calls;
      }
      var valid := Validate(config);
      if !valid {
        if starts {
          StartsValid(adapter.state, applied, config);
        }
        return false, [], adapter.calls;
      }
      var found := adapter.LinkByIndex(config.tunIndex);
      if !found {
        return false, [], adapter.calls;
      }
      var listed, routes := SnapshotMain(adapter, config.families.ToSeq());
      if !listed {
        return false, [], adapter.calls;
      }
      main := routes;
      var compiled := CompileDesiredState(config, routes);
      DesiredConfig(config, routes);
      ch := Attempt(adapter.state, applied, config, routes);
      NowCompiled(ch, routes, appliedMain);
      if starts {
        StartsAnySnapshot(adapter.state, applied, config, routes);
      }
      ok, rulesAt := ApplyDesired(adapter, applied, compiled.value);
      if starts {
        RulesToAdd(ch);
      }
      if ok {
        if starts {
          CompleteMayRefresh(ch, adapter.state);
        }
        applied := Some(compiled.value);
        appliedMain := routes;
      }
    }

    /** Rebuilds the safe table from the current main table behind the guards. From any
        kernel a success leaves exactly what `Refreshed` says; from one that holds what the
        manager applied every state is safe and the policy is complete again. */
    method Refresh() returns (ok: bool, ghost main: seq<Route>)
      requires Inv()
      modifies this, adapter
      ensures old(adapter.calls) <= adapter.calls
      ensures !closed && old(applied).Some? && adapter.NoFailure(old(adapter.calls), adapter.calls) ==> ok
      ensures Inv() && closed == old(closed) && old(adapter.trace) <= adapter.trace
      ensures old(applied).Some? ==>
                Kept(RollbackConfigs(old(applied).value.config, old(applied)), old(adapter.state), adapter.state)
      ensures old(applied).Some? ==>
                NothingNew(RollbackConfigs(old(applied).value.config, old(applied)), old(adapter.state), adapter.state)
      ensures old(applied).None? ==> adapter.state == old(adapter.state) && adapter.trace == old(adapter.trace)
      ensures || BlockedSince(old(adapter.state), adapter.trace, |old(adapter.trace)|)
              || IsSnapshot(old(adapter.state), old(applied).value.config.families.ToSeq(), main)
      ensures ok ==> !closed && old(applied).Some?
      ensures ok ==> IsSnapshot(old(adapter.state), old(applied).value.config.families.ToSeq(), main)
      ensures ok ==> applied == Some(Desired(old(applied).value.config, main))
      ensures ok ==> Refreshed(old(adapter.state), old(applied).value.config, main, adapter.state)
      ensures !ok ==> applied == old(applied)
      ensures old(applied).Some? && MayRefresh(old(adapter.state), old(applied).value) ==>
                && SafeSince(Attempt(old(adapter.state), old(applied), old(applied).value.config, main),
                             adapter.trace, |old(adapter.trace)|)
                && (ok ==> Complete(Attempt(old(adapter.state), old(applied), old(applied).value.config, main),
                                    adapter.state))
                && MayRefresh(adapter.state, applied.value)
    {
      hide Starts, Safe, NewRules, NewTables, Desired, Policy.Valid, MayRefresh, Kept, Complete, SafeSince, Refreshed;
      hide IsSnapshot, BlockedOrAs;
      main := [];
      if applied.Some? {
        KeptSelf(RollbackConfigs(applied.value.config, applied), adapter.state);
        NothingSince(Attempt(adapter.state, applied, applied.value.config, []), adapter.trace);
      }
      if closed || applied.None? {
        return false, [];
      }
      DesiredConfig(applied.value.config, appliedMain);
      assert RollbackConfigs(applied.value.config, applied) == [applied.value.config, applied.value.config];
      var desired;
      ok, desired, main := RefreshLocked(adapter, applied.value, appliedMain);
      if ok {
        DesiredConfig(applied.value.config, main);
        if MayRefresh(old(adapter.state), applied.value) {
          MayRefreshStarts(old(adapter.state), applied.value, main);
          CompleteMayRefresh(Attempt(old(adapter.state), applied, applied.value.config, main), adapter.state);
        }
        applied := Some(desired);
        appliedMain := main;
      }
    }

    /** Called when a main-table change is first seen: guards go in at once. Whatever the
        kernel holds, for example after a failed Apply, this only blocks traffic. */
    method BeginRouteChange() returns (ok: bool)
      requires Inv()
      modifies adapter
      ensures old(adapter.calls) <= adapter.calls && (adapter.NoFailure(old(adapter.calls), adapter.calls) ==> ok)
      ensures Inv() && old(adapter.trace) <= adapter.trace
      ensures BlockedSince(old(adapter.state), adapter.trace, |old(adapter.trace)|)
      ensures applied.Some? ==>
                Kept(RollbackConfigs(applied.value.config, applied), old(adapter.state), adapter.state)
      ensures applied.Some? ==>
                NothingNew(RollbackConfigs(applied.value.config, applied), old(adapter.state), adapter.state)
      ensures applied.None? ==> adapter.state == old(adapter.state)
      ensures applied.Some? && MayRefresh(old(adapter.state), applied.value) ==>
                MayRefresh(adapter.state, applied.value)
      ensures ok && !closed && applied.Some? && applied.value.config.strictness != Strict ==>
                forall f: Family | applied.value.config.families.Has(f) ::
                  TransitionGuard(applied.value.config, f) in adapter.state.Rules(f)
    {
      hide Starts, Installing, Guarded, MayRefresh, BlockedOrAs, Desired, Policy.Valid, Kept;
      hide Blockers, GuardsListed;
      if applied.Some? {
        KeptSelf(RollbackConfigs(applied.value.config, applied), adapter.state);
      }
      if closed || applied.None? || applied.value.config.strictness == Strict {
        return true;
      }
      var c := applied.value.config;
      DesiredConfig(c, appliedMain);
      DesiredConfig(c, []);
      ghost var ch := Attempt(adapter.state, applied, c, []);
      var guards := TransitionGuards([c]);
      OneConfigGuards(ch, c, guards);
      assert ch.Configs() == [c, c];
      GuardsBlock([c, c], guards);
      ok := InstallGuards(adapter, ch, guards);
      if MayRefresh(old(adapter.state), applied.value) {
        MayRefreshStarts(old(adapter.state), applied.value, []);
        GuardsMayRefresh(old(adapter.state), applied.value, adapter.state);
      }
      if ok {
        OwnGuards(c, guards, adapter.state);
      }
    }

    /** The monitor's refresh: nothing to do without a non-strict policy. */
    method RefreshAfterRouteChange() returns (ok: bool, ghost main: seq<Route>)
      requires Inv()
      modifies this, adapter
      ensures old(adapter.calls) <= adapter.calls && (adapter.NoFailure(old(adapter.calls), adapter.calls) ==> ok)
      ensures Inv() && closed == old(closed) && old(adapter.trace) <= adapter.trace
      ensures old(applied).Some? ==>
                Kept(RollbackConfigs(old(applied).value.config, old(applied)), old(adapter.state), adapter.state)
      ensures old(applied).None? ==> adapter.state == old(adapter.state) && adapter.trace == old(adapter.trace)
      ensures || BlockedSince(old(adapter.state), adapter.trace, |old(adapter.trace)|)
              || IsSnapshot(old(adapter.state), old(applied).value.config.families.ToSeq(), main)
      ensures ok && !closed && old(applied).Some? && old(applied).value.config.strictness != Strict ==>
                && applied == Some(Desired(old(applied).value.config, main))
                && IsSnapshot(old(adapter.state), old(applied).value.config.families.ToSeq(), main)
                && Refreshed(old(adapter.state), old(applied).value.config, main, adapter.state)
      ensures old(applied).Some? && MayRefresh(old(adapter.state), old(applied).value) ==>
                && applied.Some? && MayRefresh(adapter.state, applied.value)
                && SafeSince(Attempt(old(adapter.state), old(applied), old(applied).value.config, main),
                             adapter.trace, |old(adapter.trace)|)
                && (ok && !closed && old(applied).value.config.strictness != Strict ==>
                      Complete(Attempt(old(adapter.state), old(applied), old(applied).value.config, main),
                               adapter.state))
      ensures !ok ==> applied == old(applied)
      ensures applied.Some? == old(applied).Some?
      ensures applied.Some? ==> applied.value.config == old(applied).value.config
    {
      hide Starts, Safe, NewRules, NewTables, Desired, Policy.Valid, MayRefresh, Kept, Complete, SafeSince, Refreshed;
      hide IsSnapshot, BlockedOrAs;
      main := [];
      if applied.Some? {
        KeptSelf(RollbackConfigs(applied.value.config, applied), adapter.state);
        NothingSince(Attempt(adapter.state, applied, applied.value.config, []), adapter.trace);
      }
      if closed || applied.None? || applied.value.config.strictness == Strict {
        return true, [];
      }
      ok, main := Refresh();
      DesiredConfig(old(applied).value.config, main);
    }

    /** Removes everything the manager may own, under this configuration and the
        applied one, and touches nothing else. A failure leaves `applied`, so that a
        later call covers the same scope. */
    method Rollback(config: Config) returns (ok: bool)
      requires Inv() && OwnFamilies(adapter.state)
      modifies this, adapter
      ensures old(adapter.calls) <= adapter.calls
      ensures Inv() && closed == old(closed) && old(adapter.trace) <= adapter.trace && OwnFamilies(adapter.state)
      ensures Kept(RollbackConfigs(config, old(applied)), old(adapter.state), adapter.state)
      ensures Fewer(old(adapter.state), adapter.state)
      ensures ok ==> !closed && Policy.Valid(config)
      ensures ok ==> OwnedEmpty(RollbackConfigs(config, old(applied)), adapter.state) && applied == None
      ensures ok ==> OwnedEmpty(if old(applied).Some? then [config, old(applied).value.config] else [config],
                                adapter.state)
      ensures !ok ==> applied == old(applied)
      ensures !closed && Policy.Valid(config) && adapter.NoFailure(old(adapter.calls), adapter.calls) ==> ok
    {
      hide Policy.Valid, Desired, Kept, ScopesApart, OwnedEmpty, Inside, Outside, ScopesOf, OwnedTable;
      var configs := RollbackConfigs(config, applied);
      assert configs == if applied.Some? then [config, applied.value.config] else [config];
      KeptSelf(configs, adapter.state);
      FewerSelf(adapter.state);
      if closed {
        return false;
      }
      var valid := Validate(config);
      if !valid {
        return false;
      }
      var scopes := OwnedRuleScopes(configs);
      var targets := OwnedTableTargets(configs);
      var rulesGone := RollbackRules(adapter, configs, scopes);
      ghost var k := adapter.state;
      var tablesGone := RollbackTables(adapter, configs, targets);
      KeptTrans(configs, old(adapter.state), k, adapter.state);
      ok := rulesGone && tablesGone;
      if ok {
        AllGone(configs, k, adapter.state);
        applied := None;
      }
    }
  }

  lemma DesiredConfig(c: Config, main: seq<Route>)
    ensures Desired(c, main).config == c
  {
  }

  lemma SnapshotStep(k: KernelState, fs: seq<Family>, i: nat, main: seq<Route>, routes: seq<Route>)
    requires i < |fs| && IsSnapshot(k, fs[..i], main) && Lists(TableOf(k.tables, TableId(fs[i], RT_TABLE_MAIN)), routes)
    ensures IsSnapshot(k, fs[..i + 1], main + routes)
  {
    var t := TableOf(k.tables, TableId(fs[i], RT_TABLE_MAIN));
    assert fs[..i + 1] == fs[..i] + [fs[i]];
    forall r ensures r in main + routes <==>
      exists f, key :: InMain(k, f, key) && f in fs[..i + 1] && r == TableOf(k.tables, TableId(f, RT_TABLE_MAIN))[key]
    {
      if r in routes {
        assert InMain(k, fs[i], KeyOf(r)) && r == t[KeyOf(r)];
      }
    }
  }
}
