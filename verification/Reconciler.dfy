/** The reconciliation that Apply runs, stage by stage, and what it leaves in the tables. */
module Reconciler {
  import opened Netip
  import opened Order
  import opened Policy
  import opened Kernel
  import opened Transition
  import opened Safety
  import opened Steps
  import opened Adapters
  import opened Managers
  import opened Stages

  /** `main` holds exactly the main-table routes of the configuration's families. */
  ghost predicate IsSnapshot(k: KernelState, fs: seq<Family>, main: seq<Route>) {
    forall r :: r in main <==>
      exists f, key :: InMain(k, f, key) && f in fs && r == TableOf(k.tables, TableId(f, RT_TABLE_MAIN))[key]
  }

  predicate InMain(k: KernelState, f: Family, key: RouteKey) {
    key in TableOf(k.tables, TableId(f, RT_TABLE_MAIN))
  }

  /******* Compiled states are well formed *******/

  lemma {:induction false} OverFamiliesMembers<T>(fs: seq<Family>, g: Family -> seq<T>, x: T)
    ensures x in OverFamilies(fs, g) <==> exists f :: f in fs && x in g(f)
  {
    if fs != [] {
      OverFamiliesMembers(fs[..|fs| - 1], g, x);
      assert fs == fs[..|fs| - 1] + [fs[|fs| - 1]];
    }
  }

  lemma {:induction false} ReplayMembers(c: Config, rs: seq<Route>, x: Route)
    ensures x in Replay(c, rs) <==> exists r :: r in rs && Replayed(c, r) && x == SafeTableRoute(r, c.safeTable)
  {
    if rs != [] {
      ReplayMembers(c, rs[..|rs| - 1], x);
      assert rs == rs[..|rs| - 1] + [rs[|rs| - 1]];
    }
  }

  lemma SafeRoutesMembers(c: Config, main: seq<Route>, x: Route)
    ensures x in SafeRoutes(c, main) <==> exists r :: r in main && Replayed(c, r) && x == SafeTableRoute(r, c.safeTable)
  {
    SortPermutes(SafeLe, Replay(c, main));
    assert x in multiset(SafeRoutes(c, main)) <==> x in multiset(Replay(c, main));
    ReplayMembers(c, main, x);
  }

  lemma FamiliesMembers(fs: FamilySet, f: Family)
    ensures f in fs.ToSeq() <==> fs.Has(f)
  {
  }

  lemma DesiredRules(c: Config, main: seq<Route>, r: Rule)
    ensures r in Desired(c, main).rules <==> c.families.Has(r.family) && r in CompileRules(c, r.family)
  {
    hide VpnRoutes, SafeRoutes, CompileRules, OverFamilies;
    var g := f => CompileRules(c, f);
    OverFamiliesMembers(c.families.ToSeq(), g, r);
    FamiliesMembers(c.families, V4);
    FamiliesMembers(c.families, V6);
    CompiledRuleShape(c, V4);
    CompiledRuleShape(c, V6);
    forall f: Family | r in g(f) ensures r.family == f {
      assert r in CompileRules(c, f);
    }
    if c.families.Has(r.family) && r in CompileRules(c, r.family) {
      assert r.family in c.families.ToSeq() && r in g(r.family);
    }
  }

  lemma VpnRoutesShape(c: Config, f: Family, r: Route)
    requires r in VpnRoutes(c, f)
    ensures r.family == f && r.table == c.vpnTable && r.link == c.tunIndex && r.priority == 0
  {
  }

  lemma DesiredVpnRoutes(c: Config, main: seq<Route>, r: Route)
    ensures r in Desired(c, main).vpnRoutes <==> c.families.Has(r.family) && r in VpnRoutes(c, r.family)
    ensures r in Desired(c, main).vpnRoutes ==> r.table == c.vpnTable && r.link == c.tunIndex && r.priority == 0
  {
    hide VpnRoutes, SafeRoutes, CompileRules, OverFamilies;
    var g := f => VpnRoutes(c, f);
    OverFamiliesMembers(c.families.ToSeq(), g, r);
    FamiliesMembers(c.families, V4);
    FamiliesMembers(c.families, V6);
    forall f: Family | r in g(f)
      ensures r.family == f && r.table == c.vpnTable && r.link == c.tunIndex && r.priority == 0
    {
      VpnRoutesShape(c, f, r);
    }
    if c.families.Has(r.family) && r in VpnRoutes(c, r.family) {
      assert r.family in c.families.ToSeq() && r in g(r.family);
    }
  }

  lemma DesiredWellCompiled(c: Config, main: seq<Route>)
    requires Policy.Valid(c)
    ensures WellCompiled(Desired(c, main))
  {
    var d := Desired(c, main);
    forall r: Rule ensures r in d.rules <==> c.families.Has(r.family) && r in CompileRules(c, r.family) {
      DesiredRules(c, main, r);
    }
    forall r | r in d.vpnRoutes ensures c.families.Has(r.family) && r.table == c.vpnTable {
      DesiredVpnRoutes(c, main, r);
    }
    forall r | r in d.safeRoutes ensures c.families.Has(r.family) && r.table == c.safeTable {
      SafeRoutesMembers(c, main, r);
    }
    hide Policy.Valid, CompileRules, OverFamilies, SafeRoutes;
  }

  lemma StartsSameConfig(ch: Change, dh: Change, f: Family)
    requires ch.before == dh.before && ch.prev == dh.prev && ch.next.config == dh.next.config && StartsFor(ch, f)
    ensures StartsFor(dh, f)
  {
    hide CompileRules, Scope, GuardSet, FirstAt;
    assert ch.Configs() == dh.Configs();
    assert ch.PrevRules(f) == dh.PrevRules(f) && ch.NextRules(f) == dh.NextRules(f);
    assert ch.Owned(f) == dh.Owned(f) && ch.Guards(f) == dh.Guards(f);
    forall r | r in ch.before.Rules(f) && ch.Owned(f).Has(r.priority) ensures Known(dh, f, r) {
      assert Known(ch, f, r);
    }
  }

  /** Whether a change may start does not depend on the snapshot. */
  lemma StartsAnySnapshot(before: KernelState, prev: Option<DesiredState>, c: Config, main: seq<Route>)
    requires Policy.Valid(c) && Starts(Change(before, prev, Desired(c, [])))
    ensures Starts(Change(before, prev, Desired(c, main)))
  {
    hide Policy.Valid, WellCompiled, StartsFor;
    DesiredWellCompiled(c, main);
    var ch, dh := Change(before, prev, Desired(c, [])), Change(before, prev, Desired(c, main));
    StartsSameConfig(ch, dh, V4);
    StartsSameConfig(ch, dh, V6);
  }

  lemma RoutesOwned(ch: Change)
    requires WellCompiled(ch.next)
    ensures forall r | r in ch.next.vpnRoutes || r in ch.next.safeRoutes :: OwnedTable(ch.Configs(), IdOf(r))
  {
    hide Policy.Valid;
    assert ch.next.config in ch.Configs();
  }

  lemma GuardsThere(ch: Change, k: KernelState, guards: seq<Rule>)
    requires Guarded(ch, k) && GuardsListed(ch, guards)
    ensures forall g | g in guards :: g in k.Rules(g.family)
  {
    hide ShapedFor;
  }

  lemma StartShaped(ch: Change)
    requires Starts(ch)
    ensures Shaped(ch, ch.before)
  {
    StartInstalling(ch);
    InstallingShaped(ch, ch.before);
  }

  ghost predicate Compiled(ch: Change) {
    WellCompiled(ch.next) && (ch.prev.Some? ==> WellCompiled(ch.prev.value))
  }

  lemma CompiledBlockers(ch: Change, guards: seq<Rule>)
    requires Compiled(ch) && GuardsListed(ch, guards)
    ensures Blockers(ch.Configs(), guards)
  {
    hide Policy.Valid;
    assert forall c | c in ch.Configs() :: Policy.Valid(c);
    GuardsBlock(ch.Configs(), guards);
  }

  /** One attempt to reconcile, from any kernel. Nothing foreign changes. From a kernel where
      the change may start every state is safe, however the attempt ends, and success is
      exact. `rulesAt` is the number of the first call that adds a compiled rule. */
  method ApplyDesired(a: Adapter, prev: Option<DesiredState>, desired: DesiredState)
    returns (ok: bool, ghost rulesAt: nat)
    requires a.Valid() && OwnFamilies(a.state) && Compiled(Change(a.state, prev, desired))
    modifies a
    ensures old(a.calls) <= a.calls && (a.NoFailure(old(a.calls), a.calls) ==> ok)
    ensures a.Valid() && old(a.trace) <= a.trace
    ensures Kept(Change(old(a.state), prev, desired).Configs(), old(a.state), a.state)
    ensures old(a.calls) <= rulesAt && (ok ==> rulesAt <= a.calls)
    ensures Starts(Change(old(a.state), prev, desired)) ==>
              var ch := Change(old(a.state), prev, desired);
              && SafeSince(ch, a.trace, |old(a.trace)|) && Safe(ch, a.state) && Shaped(ch, a.state)
              && (ok ==> SameTables(a.state.tables, NewTables(ch)))
              && (ok ==> a.state.v4 == NewRules(ch, V4) && a.state.v6 == NewRules(ch, V6))
              && (a.NoFailure(old(a.calls), rulesAt) && a.fails(rulesAt) && desired.rules != [] ==>
                    !ok && Ready(ch, a.state) && Bare(ch, a.state))
  {
    hide Starts, Ready, NewRules, NewTables, Bare, Compiled, GuardSet, OwnFamilies;
    hide SameTables, Kept, Shaped, SafeSince, Safe, GuardsListed, Blockers, WellCompiled;
    ghost var ch, n := Change(a.state, prev, desired), |a.trace|;
    ghost var starts := Starts(ch);
    CompiledParts(ch);
    var configs := [desired.config] + if prev.Some? then [prev.value.config] else [];
    assert configs == ch.Configs();
    var guards := TransitionGuards(configs);
    GuardsAreListed(ch, guards);
    CompiledBlockers(ch, guards);
    ok := RaiseGuards(a, ch, prev, desired.rules, guards);
    rulesAt := a.calls;
    if !ok {
      return;
    }
    ghost var k, m, trace := a.state, |a.trace|, a.trace;
    ok := ReplaceTables(a, ch, desired, configs);
    rulesAt := a.calls;
    KeptTrans(configs, ch.before, k, a.state);
    if starts {
      assert a.trace[..m] == trace;
      SafeSinceMore(ch, a.trace, n, m);
      ReadyShaped(ch, a.state);
      ReadyIsSafe(ch, a.state);
    }
    if !ok {
      return;
    }
    k, m, trace := a.state, |a.trace|, a.trace;
    KeptFamilies(configs, ch.before, k);
    ok, rulesAt := ReplaceRules(a, ch, desired, configs, guards);
    KeptTrans(configs, ch.before, k, a.state);
    if starts {
      assert a.trace[..m] == trace;
      SafeSinceMore(ch, a.trace, n, m);
    }
  }

  /** The guards go in and old rules off their slots. */
  method RaiseGuards(a: Adapter, ghost ch: Change, prev: Option<DesiredState>, wanted: seq<Rule>, guards: seq<Rule>)
    returns (ok: bool)
    requires a.Valid() && prev == ch.prev && wanted == ch.next.rules && (prev.Some? ==> WellCompiled(prev.value))
    requires GuardsListed(ch, guards) && Blockers(ch.Configs(), guards) && a.state == ch.before
    modifies a
    ensures old(a.calls) <= a.calls && (a.NoFailure(old(a.calls), a.calls) ==> ok)
    ensures a.Valid() && old(a.trace) <= a.trace && Kept(ch.Configs(), old(a.state), a.state)
    ensures Starts(ch) ==>
              && SafeSince(ch, a.trace, |old(a.trace)|) && Safe(ch, a.state)
              && Shaped(ch, a.state) && (ok ==> Ready(ch, a.state))
  {
    hide Starts, Guarded, Ready, OldOnly, Installing, BlockedSince, BlockedOrAs, Kept, Shaped;
    hide SafeSince, Safe, GuardsListed, Blockers, WellCompiled, AddedAll;
    ghost var n, starts := |a.trace|, Starts(ch);
    ok := InstallGuards(a, ch, guards);
    BlockedIsSafe(ch, a.trace, n);
    BlockedSafe(ch, a.state);
    if starts {
      InstallingShaped(ch, a.state);
      InstallingOld(ch, a.state);
    }
    if !ok {
      return;
    }
    ghost var k, m, trace := a.state, |a.trace|, a.trace;
    ok := ClearGuardSlots(a, ch, prev, wanted, guards);
    KeptTrans(ch.Configs(), ch.before, k, a.state);
    if starts {
      assert a.trace[..m] == trace;
      SafeSinceMore(ch, a.trace, n, m);
      GuardedShaped(ch, a.state);
      GuardedIsSafe(ch, a.state);
    }
  }

  lemma BlockedSafe(ch: Change, k: KernelState)
    requires BlockedOrAs(ch.before, k)
    ensures Safe(ch, k)
  {
  }

  lemma CompiledParts(ch: Change)
    requires Compiled(ch)
    ensures WellCompiled(ch.next) && (ch.prev.Some? ==> WellCompiled(ch.prev.value))
  {
  }

  lemma GuardsAreListed(ch: Change, guards: seq<Rule>)
    requires forall g :: g in guards <==> g in GuardSet(ch.Configs(), g.family)
    ensures GuardsListed(ch, guards)
  {
  }

  lemma KeptFamilies(cs: seq<Config>, before: KernelState, k: KernelState)
    requires Kept(cs, before, k) && OwnFamilies(before)
    ensures OwnFamilies(k)
  {
  }

  /** Only the tables of the routes have changed. */
  lemma RoutesKept(cs: seq<Config>, routes: seq<Route>, before: KernelState, k: KernelState)
    requires forall r | r in routes :: OwnedTable(cs, IdOf(r))
    requires k.v4 == before.v4 && k.v6 == before.v6
    requires forall id: TableId | (forall r | r in routes :: IdOf(r) != id) ::
               TableOf(k.tables, id) == TableOf(before.tables, id)
    ensures Kept(cs, before, k)
  {
  }

  lemma SameSelf(ts: Tables)
    ensures SameTables(ts, ts)
  {
  }

  method ReplaceTables(a: Adapter, ghost ch: Change, desired: DesiredState, configs: seq<Config>) returns (ok: bool)
    requires a.Valid() && desired == ch.next && WellCompiled(desired) && configs == ch.Configs()
    modifies a
    ensures old(a.calls) <= a.calls && (a.NoFailure(old(a.calls), a.calls) ==> ok)
    ensures a.Valid() && old(a.trace) <= a.trace && Kept(configs, old(a.state), a.state)
    ensures Starts(ch) && Ready(ch, old(a.state)) ==>
              && SafeSince(ch, a.trace, |old(a.trace)|) && Ready(ch, a.state)
              && (ok ==> SameTables(a.state.tables, NewTables(ch)))
  {
    hide Starts, Safe, Ready, Flushed, OwnedTable, InstallAll, SameTables, Kept, Shaped, WellCompiled, SafeSince;
    ghost var ready, n := Starts(ch) && Ready(ch, a.state), |a.trace|;
    var targets := OwnedTableTargets(configs);
    ok := FlushTargets(a, ch, targets);
    if !ok {
      return;
    }
    RoutesOwned(ch);
    ghost var k, m, trace := a.state, |a.trace|, a.trace;
    SameSelf(k.tables);
    ghost var start := if ready then Flushed(configs, ch.before.tables) else k.tables;
    ok := InstallRoutes(a, ch, desired.vpnRoutes, start);
    RoutesKept(configs, desired.vpnRoutes, k, a.state);
    KeptTrans(configs, old(a.state), k, a.state);
    if ready {
      assert a.trace[..m] == trace;
      SafeSinceMore(ch, a.trace, n, m);
    }
    if !ok {
      return;
    }
    k, m, trace := a.state, |a.trace|, a.trace;
    ok := InstallRoutes(a, ch, desired.safeRoutes, InstallAll(start, desired.vpnRoutes));
    RoutesKept(configs, desired.safeRoutes, k, a.state);
    KeptTrans(configs, old(a.state), k, a.state);
    if ready {
      assert a.trace[..m] == trace;
      SafeSinceMore(ch, a.trace, n, m);
    }
  }

  method ReplaceRules(a: Adapter, ghost ch: Change, desired: DesiredState, configs: seq<Config>, guards: seq<Rule>)
    returns (ok: bool, ghost rulesAt: nat)
    requires a.Valid() && OwnFamilies(a.state) && desired == ch.next && WellCompiled(desired) && configs == ch.Configs()
    requires GuardsListed(ch, guards) && Blockers(configs, guards)
    requires forall i, j | 0 <= i < j < |guards| :: guards[i] != guards[j]
    modifies a
    ensures old(a.calls) <= a.calls && (a.NoFailure(old(a.calls), a.calls) ==> ok)
    ensures a.Valid() && old(a.trace) <= a.trace && Kept(configs, old(a.state), a.state)
    ensures old(a.calls) <= rulesAt <= a.calls
    ensures Starts(ch) && Ready(ch, old(a.state)) && SameTables(old(a.state).tables, NewTables(ch)) ==>
              && SafeSince(ch, a.trace, |old(a.trace)|) && Safe(ch, a.state) && Shaped(ch, a.state)
              && (ok ==> a.state.v4 == NewRules(ch, V4) && a.state.v6 == NewRules(ch, V6))
              && (ok ==> SameTables(a.state.tables, NewTables(ch)))
              && (a.NoFailure(old(a.calls), rulesAt) && a.fails(rulesAt) && desired.rules != [] ==>
                    !ok && Ready(ch, a.state) && Bare(ch, a.state))
  {
    hide Starts, Safe, Guarded, Ready, Finishing, Adding, NewRules, NewTables, Bare, SameTables, ScopesOf, Kept;
    hide Shaped, ScopesApart, GuardsListed, Finishable, Blockers, SafeSince, WellCompiled, OwnFamilies;
    ghost var was, n := a.state, |a.trace|;
    ghost var ready := Starts(ch) && Ready(ch, was) && SameTables(was.tables, NewTables(ch));
    var scopes := OwnedRuleScopes(configs);
    ok := PruneScopes(a, ch, scopes, guards);
    rulesAt := a.calls;
    if ready {
      ReadyShaped(ch, a.state);
      ReadyIsSafe(ch, a.state);
    }
    if !ok {
      return;
    }
    ghost var k, m, trace := a.state, |a.trace|, a.trace;
    if ready {
      StartAdding(ch, k);
    }
    ok := AddRules(a, ch, desired.rules);
    KeptTrans(configs, was, k, a.state);
    if ready {
      GuardedShaped(ch, a.state);
      GuardedIsSafe(ch, a.state);
      assert a.trace[..m] == trace;
      SafeSinceMore(ch, a.trace, n, m);
    }
    if !ok {
      return;
    }
    k, m, trace := a.state, |a.trace|, a.trace;
    if ready {
      StartFinishing(ch, k);
      AddedFinishable(ch, k, desired.rules, guards);
    }
    ok := RemoveGuards(a, ch, desired.rules, guards);
    KeptTrans(configs, was, k, a.state);
    if ready {
      FinishingShaped(ch, a.state);
      FinishingIsSafe(ch, a.state);
      assert a.trace[..m] == trace;
      SafeSinceMore(ch, a.trace, n, m);
    }
  }

  lemma AddedFinishable(ch: Change, k: KernelState, wanted: seq<Rule>, guards: seq<Rule>)
    requires Starts(ch) && Finishing(ch, k) && Guarded(ch, k) && wanted == ch.next.rules && GuardsListed(ch, guards)
    requires forall i, j | 0 <= i < j < |guards| :: guards[i] != guards[j]
    ensures Finishable(ch, k, wanted, guards)
  {
    hide Finishing;
    GuardsThere(ch, k, guards);
  }

  lemma SafeSinceMore(ch: Change, trace: seq<KernelState>, m: nat, n: nat)
    requires m <= n <= |trace| && SafeSince(ch, trace[..n], m) && SafeSince(ch, trace, n)
    ensures SafeSince(ch, trace, m)
  {
    hide Safe;
    forall i | m <= i < |trace| ensures Safe(ch, trace[i]) {
      if i < n {
        assert trace[i] == trace[..n][i];
      }
    }
  }

  /******* Tables across a refresh *******/

  /** The manager's tables hold exactly the compiled routes. */
  ghost predicate TablesMatch(ts: Tables, d: DesiredState) {
    forall id: TableId | OwnedTable([d.config], id) ::
      TableOf(ts, id) == TableOf(InstallAll(InstallAll(map[], d.vpnRoutes), d.safeRoutes), id)
  }

  lemma {:induction false} InstallById(ts: Tables, us: Tables, rs: seq<Route>, id: TableId)
    requires TableOf(ts, id) == TableOf(us, id)
    ensures TableOf(InstallAll(ts, rs), id) == TableOf(InstallAll(us, rs), id)
  {
    if rs != [] {
      InstallById(ts, us, rs[..|rs| - 1], id);
    }
  }

  /** A successful reconciliation leaves the manager's tables equal to the compiled routes. */
  lemma NewTablesMatch(ch: Change, ts: Tables)
    requires SameTables(ts, NewTables(ch))
    ensures TablesMatch(ts, ch.next)
  {
    var flushed := Flushed(ch.Configs(), ch.before.tables);
    forall id: TableId | OwnedTable([ch.next.config], id)
      ensures TableOf(ts, id) == TableOf(InstallAll(InstallAll(map[], ch.next.vpnRoutes), ch.next.safeRoutes), id)
    {
      assert ch.next.config in ch.Configs();
      assert TableOf(flushed, id) == map[];
      InstallById(flushed, map[], ch.next.vpnRoutes, id);
      InstallById(InstallAll(flushed, ch.next.vpnRoutes), InstallAll(map[], ch.next.vpnRoutes), ch.next.safeRoutes, id);
    }
  }

  /** The VPN tables hold exactly the compiled VPN routes; the safe tables may hold anything. */
  ghost predicate VpnMatch(ts: Tables, d: DesiredState) {
    forall id: TableId | OwnedTable([d.config], id) && id.table == d.config.vpnTable ::
      TableOf(ts, id) == TableOf(InstallAll(map[], d.vpnRoutes), id)
  }

  lemma TablesMatchVpn(ts: Tables, d: DesiredState)
    requires WellCompiled(d) && TablesMatch(ts, d)
    ensures VpnMatch(ts, d)
  {
    assert d.config.vpnTable != d.config.safeTable;
    forall id: TableId | OwnedTable([d.config], id) && id.table == d.config.vpnTable
      ensures TableOf(ts, id) == TableOf(InstallAll(map[], d.vpnRoutes), id)
    {
      InstallFrame(InstallAll(map[], d.vpnRoutes), d.safeRoutes, id);
    }
  }

  /** `start` is `before` with the safe tables of the configuration emptied. */
  ghost predicate SafeFlushed(c: Config, before: Tables, start: Tables) {
    forall id: TableId ::
      TableOf(start, id) == if c.families.Has(id.family) && id.table == c.safeTable then map[] else TableOf(before, id)
  }

  lemma RefreshTablesAt(ch: Change, d: DesiredState, start: Tables, id: TableId)
    requires Starts(ch) && ch.prev == Some(d) && d.config == ch.next.config && d.vpnRoutes == ch.next.vpnRoutes
    requires VpnMatch(ch.before.tables, d) && SafeFlushed(d.config, ch.before.tables, start)
    ensures TableOf(start, id) == TableOf(InstallAll(Flushed(ch.Configs(), ch.before.tables), d.vpnRoutes), id)
  {
    var c, flushed := d.config, Flushed(ch.Configs(), ch.before.tables);
    ConfigsValid(ch);
    assert ch.Configs() == [c, c];
    assert OwnedTable(ch.Configs(), id) <==> OwnedTable([c], id);
    if !OwnedTable([c], id) {
      forall r | r in d.vpnRoutes ensures IdOf(r) != id {
        assert OwnedTable([c], IdOf(r));
      }
      InstallFrame(flushed, d.vpnRoutes, id);
    } else if id.table == c.safeTable {
      InstallFrame(flushed, d.vpnRoutes, id);
    } else {
      InstallById(flushed, map[], d.vpnRoutes, id);
    }
  }

  lemma RefreshTables(ch: Change, d: DesiredState, start: Tables, ts: Tables)
    requires Starts(ch) && ch.prev == Some(d) && d.config == ch.next.config && d.vpnRoutes == ch.next.vpnRoutes
    requires VpnMatch(ch.before.tables, d) && SafeFlushed(d.config, ch.before.tables, start)
    requires SameTables(ts, InstallAll(start, ch.next.safeRoutes))
    ensures SameTables(ts, NewTables(ch))
  {
    hide Starts;
    forall id: TableId ensures TableOf(ts, id) == TableOf(NewTables(ch), id) {
      RefreshTablesAt(ch, d, start, id);
      InstallById(start, InstallAll(Flushed(ch.Configs(), ch.before.tables), d.vpnRoutes), ch.next.safeRoutes, id);
    }
  }
}
