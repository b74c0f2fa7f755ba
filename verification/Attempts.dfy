/** Calls of the manager one after the other. Where an attempt stopped, whichever call
    failed, the next one may start, and it is safe from there. */
module Attempts {
  import opened Netip
  import opened Policy
  import opened Kernel
  import opened Transition
  import opened Safety
  import opened Steps
  import opened Managers
  import opened Stages
  import opened Reconciler
  import opened RoutingManager

  /******* Starting where an attempt stopped *******/

  lemma RestartFor(ch: Change, dh: Change, f: Family)
    requires dh.prev == ch.prev && dh.next.config == ch.next.config
    requires StartsFor(ch, f) && ShapedFor(ch, f, dh.before.Rules(f))
    ensures StartsFor(dh, f)
  {
    hide CompileRules, Scope, GuardSet, FirstAt, OwnedTable, Sorted, NoDup;
    var rs := dh.before.Rules(f);
    assert ch.Configs() == dh.Configs() && ch.Owned(f) == dh.Owned(f) && ch.Guards(f) == dh.Guards(f);
    assert ch.PrevRules(f) == dh.PrevRules(f) && ch.NextRules(f) == dh.NextRules(f);
    SplitMembers(ch.Owned(f), rs);
    SplitMembers(ch.Owned(f), ch.before.Rules(f));
    forall r | r in rs && !ch.Owned(f).Has(r.priority) ensures r in ch.before.Rules(f) {
      assert r in Outside(ch.Owned(f), rs);
    }
    forall r | r in rs && ch.Owned(f).Has(r.priority) ensures Known(dh, f, r) {
      ShapedKnown(ch, f, rs, r);
    }
  }

  /** Wherever an attempt stopped, the same change may be attempted again. */
  lemma ShapedRestarts(before: KernelState, prev: Option<DesiredState>, c: Config, main: seq<Route>, k: KernelState)
    requires Starts(Attempt(before, prev, c, [])) && Shaped(Attempt(before, prev, c, main), k)
    ensures Starts(Attempt(k, prev, c, []))
  {
    StartsValid(before, prev, c);
    StartsAnySnapshot(before, prev, c, main);
    DesiredConfig(c, main);
    DesiredConfig(c, []);
    hide StartsFor, ShapedFor, Policy.Valid, Desired, WellCompiled;
    var ch, dh := Attempt(before, prev, c, main), Attempt(k, prev, c, []);
    RestartFor(ch, dh, V4);
    RestartFor(ch, dh, V6);
  }

  lemma FewerFor(ch: Change, dh: Change, f: Family)
    requires dh.prev == ch.prev && dh.next == ch.next
    requires StartsFor(ch, f) && Part(dh.before.Rules(f), ch.before.Rules(f))
    ensures StartsFor(dh, f)
  {
    hide CompileRules, Scope, GuardSet, FirstAt, OwnedTable, Sorted, NoDup, Part;
    var rs := dh.before.Rules(f);
    assert ch.Configs() == dh.Configs();
    PartMembers(rs, ch.before.Rules(f));
    PartSorted(rs, ch.before.Rules(f));
    forall r | r in rs && dh.Owned(f).Has(r.priority) ensures Known(dh, f, r) {
      assert Known(ch, f, r);
    }
    forall r, g | r in dh.PrevRules(f) && r in rs && g in dh.Guards(f) && r.priority == g.priority
      ensures FirstAt(rs, r)
    {
      assert r in ch.PrevRules(f) && g in ch.Guards(f);
      PartFirstAt(rs, ch.before.Rules(f), r);
    }
  }

  /** A rollback that stops part way spoils no attempt. */
  lemma FewerStarts(before: KernelState, prev: Option<DesiredState>, c: Config, k: KernelState)
    requires Starts(Attempt(before, prev, c, [])) && Fewer(before, k)
    ensures Starts(Attempt(k, prev, c, []))
  {
    hide StartsFor, Part, Desired, WellCompiled;
    var ch, dh := Attempt(before, prev, c, []), Attempt(k, prev, c, []);
    FewerFor(ch, dh, V4);
    FewerFor(ch, dh, V6);
  }

  /** One call of Apply: where it began, what it read, and its part of the trace. */
  datatype Try = Try(before: KernelState, applied: Option<DesiredState>, config: Config, main: seq<Route>,
                     from: nat, to: nat)

  ghost function ChangeOf(t: Try): Change {
    Attempt(t.before, t.applied, t.config, t.main)
  }

  /** Every state of the attempt is safe from where it began, with the main table as it was there. */
  ghost predicate SafeTry(t: Try, trace: seq<KernelState>) {
    && t.from <= t.to <= |trace|
    && (forall i | t.from <= i < t.to :: Safe(ChangeOf(t), trace[i]))
    && (t.from < t.to ==> IsSnapshot(t.before, t.config.families.ToSeq(), t.main))
  }

  lemma TryIsSafe(t: Try, trace: seq<KernelState>)
    requires t.from <= t.to == |trace| && SafeSince(ChangeOf(t), trace, t.from)
    requires t.from == t.to || IsSnapshot(t.before, t.config.families.ToSeq(), t.main)
    ensures SafeTry(t, trace)
  {
    hide Safe, IsSnapshot;
  }

  lemma SafeTryLater(t: Try, trace: seq<KernelState>, more: seq<KernelState>)
    requires SafeTry(t, trace) && trace <= more
    ensures SafeTry(t, more)
  {
    hide Safe, IsSnapshot;
  }

  /******* Why a change must be able to start *******/

  lemma OneRoute(ts: Tables, r: Route, a: Addr)
    requires TableOf(ts, IdOf(r)) == map[] && r.dst.Contains(a)
    ensures LookupRoute(TableOf(Kernel.ReplaceRoute(ts, r), IdOf(r)), a) == Some(r)
  {
    var t := TableOf(Kernel.ReplaceRoute(ts, r), IdOf(r));
    assert t == map[KeyOf(r) := r];
    assert Covers(t, KeyOf(r), a);
  }

  lemma NothingThere(a: Addr)
    ensures LookupRoute(map[], a) == None
  {
  }

  /** With an empty main table the policy blocks packets with the application mark. */
  lemma AppBlocked(c: Config, f: Family, ts: Tables, p: Packet)
    requires MarkMatches(c.appMark, c.appMask, p.mark) && TableOf(ts, TableId(f, RT_TABLE_MAIN)) == map[]
    ensures Eval(CompileRules(c, f), ts, p) == Blocked
  {
    NothingThere(p.dst);
    var rs := CompileRules(c, f);
    assert rs[0] == AppMain(c, f) && rs[1] == AppUnreachable(c, f) && rs[1..][0] == rs[1];
    assert Decide(rs[0], ts, p) == NoRoute && Decide(rs[1], ts, p) == Blocked;
  }

  /** The kernel with one rule `x` and nothing else, and that kernel with the guard and one
      VPN route in it, as Apply passes through it. */
  function Leftover(x: Rule): KernelState {
    KernelState([x], [], map[])
  }

  function HalfWay(x: Rule, c: Config, r: Route): KernelState {
    Added(Leftover(x), TransitionGuard(c, V4)).(tables := Kernel.ReplaceRoute(map[], r))
  }

  lemma HalfWayDecides(c: Config, x: Rule, r: Route, p: Packet)
    requires x == Rule(V4, c.base, Lookup, c.vpnTable, 0, 0)
    requires IdOf(r) == TableId(V4, c.vpnTable) && r.dst.Contains(p.dst) && FamilyOf(p.dst) == V4
    ensures HalfWay(x, c, r).Route(p) == Via(c.vpnTable, r) && Leftover(x).Route(p) == NoRoute
  {
    OneRoute(map[], r, p.dst);
    NothingThere(p.dst);
    var k := HalfWay(x, c, r);
    assert InsertRule([x], TransitionGuard(c, V4))[0] == x;
    assert k.v4[0] == x;
    assert Decide(x, k.tables, p) == Via(c.vpnTable, r);
    assert Decide(x, map[], p) == NoRoute && [x][1..] == [];
    assert Eval([x][1..], map[], p) == NoRoute;
  }

  lemma LeftoverGoal(c: Config, main: seq<Route>, x: Rule, p: Packet)
    requires Policy.Valid(c) && c.families.Has(V4) && x.priority == c.base && x.family == V4
    requires MarkMatches(c.appMark, c.appMask, p.mark) && FamilyOf(p.dst) == V4
    ensures NewKernel(Attempt(Leftover(x), None, c, main)).Route(p) == Blocked
  {
    var ch := Attempt(Leftover(x), None, c, main);
    DesiredConfig(c, main);
    assert ch.Configs() == [c];
    ScopeHas([c], V4, x.priority);
    assert Outside(ch.Owned(V4), [x]) == [];
    AddAllOwn(CompileRules(c, V4));
    CompiledStrict(c, V4);
    assert NewRules(ch, V4) == CompileRules(c, V4);
    MainStaysEmpty(c, main, x);
    hide CompileRules, Desired, NewTables, NewRules, MarkMatches;
    AppBlocked(c, V4, NewTables(ch), p);
  }

  lemma MainStaysEmpty(c: Config, main: seq<Route>, x: Rule)
    requires Policy.Valid(c)
    ensures TableOf(NewTables(Attempt(Leftover(x), None, c, main)), TableId(V4, RT_TABLE_MAIN)) == map[]
  {
    var d, id := Desired(c, main), TableId(V4, RT_TABLE_MAIN);
    DesiredConfig(c, main);
    DesiredWellCompiled(c, main);
    assert c.vpnTable != RT_TABLE_MAIN && c.safeTable != RT_TABLE_MAIN;
    assert forall r | r in d.vpnRoutes || r in d.safeRoutes :: IdOf(r) != id;
    hide Desired, WellCompiled, Policy.Valid, InstallAll;
    assert Attempt(Leftover(x), None, c, main).Configs() == [c];
    var flushed := Flushed([c], map[]);
    InstallFrame(flushed, d.vpnRoutes, id);
    InstallFrame(InstallAll(flushed, d.vpnRoutes), d.safeRoutes, id);
  }

  lemma {:induction false} AddAllOwn(rs: seq<Rule>)
    requires StrictlySorted(rs)
    ensures AddAll([], rs) == rs
  {
    if rs != [] {
      var init, last := rs[..|rs| - 1], rs[|rs| - 1];
      AddAllOwn(init);
      InsertLast(init, last);
      assert rs == init + [last];
    }
  }

  lemma {:induction false} InsertLast(rs: seq<Rule>, r: Rule)
    requires forall x | x in rs :: x.priority <= r.priority
    ensures InsertRule(rs, r) == rs + [r]
  {
    if rs != [] {
      assert rs[0] in rs;
      InsertLast(rs[1..], r);
    }
  }

  /** A lookup of the VPN table that a policy of another base left on the first slot of the
      block: Apply must not start there, for with the guard in and the first VPN route
      installed a packet with the application mark leaves through the tunnel, as neither
      before nor after. */
  lemma LeftoverLeaks(c: Config, main: seq<Route>, r: Route, p: Packet)
    requires Policy.Valid(c) && c.families.Has(V4) && FamilyOf(p.dst) == V4
    requires MarkMatches(c.appMark, c.appMask, p.mark)
    requires r in Desired(c, main).vpnRoutes && r.family == V4 && r.dst.Contains(p.dst)
    ensures var x := Rule(V4, c.base, Lookup, c.vpnTable, 0, 0);
            var ch := Attempt(Leftover(x), None, c, main);
            !Starts(ch) && !Safe(ch, HalfWay(x, c, r))
  {
    var x := Rule(V4, c.base, Lookup, c.vpnTable, 0, 0);
    var ch := Attempt(Leftover(x), None, c, main);
    DesiredVpnRoutes(c, main, r);
    hide Desired, CompileRules, NewKernel, KernelState.Route, MarkMatches;
    HalfWayDecides(c, x, r, p);
    LeftoverGoal(c, main, x, p);
    assert !Safe(ch, HalfWay(x, c, r));
    NotKnown(c, main, x);
  }

  lemma NotKnown(c: Config, main: seq<Route>, x: Rule)
    requires Policy.Valid(c) && c.families.Has(V4) && x == Rule(V4, c.base, Lookup, c.vpnTable, 0, 0)
    ensures !Starts(Attempt(Leftover(x), None, c, main))
  {
    var ch := Attempt(Leftover(x), None, c, main);
    DesiredConfig(c, main);
    assert ch.Configs() == [c] && c in ch.Configs();
    ScopeHas([c], V4, x.priority);
    CompiledRuleShape(c, V4);
    assert x in ch.before.Rules(V4) && !Harmless(c.base, x);
    assert !Known(ch, V4, x);
  }

  /******* Any calls, policies of one layout *******/

  /** Block and tables that all policies of a session share. */
  datatype Layout = Layout(base: int, span: int, vpnTable: int, safeTable: int)

  predicate LaidOut(c: Config, l: Layout) {
    c.base == l.base && c.span == l.span && c.vpnTable == l.vpnTable && c.safeTable == l.safeTable
  }

  /** A rule that may be there: in the block a guard or what some policy of the layout can
      have; outside it nothing that looks up the tables. */
  predicate FitRule(l: Layout, f: Family, r: Rule) {
    if l.base <= r.priority < l.base + l.span then
      Harmless(l.base, r) || r == Rule(f, l.base + OFFSET_TRANSITION_GUARD, Unreachable, 0, 0, 0)
    else r.action.Lookup? ==> r.table != l.vpnTable && r.table != l.safeTable
  }

  ghost predicate Fit(l: Layout, k: KernelState) {
    Tidy(k) && forall f: Family, r | r in k.Rules(f) :: FitRule(l, f, r)
  }

  ghost predicate AllLaidOut(cs: seq<Config>, l: Layout) {
    forall c | c in cs :: LaidOut(c, l)
  }

  lemma FitKnown(l: Layout, ch: Change, f: Family, r: Rule)
    requires AllLaidOut(ch.Configs(), l) && FitRule(l, f, r) && ch.Owned(f).Has(r.priority)
    ensures Known(ch, f, r)
  {
    hide Scope;
    ScopeHas(ch.Configs(), f, r.priority);
    var c :| c in ch.Configs() && c.families.Has(f) && c.base <= r.priority < c.base + c.span;
    if !Harmless(l.base, r) {
      assert r == TransitionGuard(c, f);
    }
  }

  lemma FitForeign(l: Layout, ch: Change, f: Family, r: Rule)
    requires AllLaidOut(ch.Configs(), l) && FitRule(l, f, r) && !ch.Owned(f).Has(r.priority) && r.action.Lookup?
    ensures !OwnedTable(ch.Configs(), TableId(f, r.table))
  {
    hide Scope;
    forall c | c in ch.Configs() && c.families.Has(f) ensures r.table != c.vpnTable && r.table != c.safeTable {
      ScopeHas(ch.Configs(), f, r.priority);
    }
  }

  lemma FitSlots(l: Layout, ch: Change, f: Family)
    requires AllLaidOut(ch.Configs(), l)
    ensures OldSlotsFirst(ch, f, ch.before.Rules(f))
  {
    forall r, g | r in ch.PrevRules(f) && g in ch.Guards(f) ensures r.priority != g.priority {
      CompiledRuleShape(ch.prev.value.config, f);
      assert ch.prev.value.config in ch.Configs();
    }
  }

  lemma FitStartsFor(l: Layout, ch: Change, f: Family)
    requires Fit(l, ch.before) && AllLaidOut(ch.Configs(), l)
    ensures StartsFor(ch, f)
  {
    hide FitRule, Known, OldSlotsFirst, OwnedTable, Scope, Sorted, NoDup, AllLaidOut;
    var rs := ch.before.Rules(f);
    FitSlots(l, ch, f);
    forall r | r in rs && ch.Owned(f).Has(r.priority) ensures Known(ch, f, r) {
      FitKnown(l, ch, f, r);
    }
    forall r | r in rs && !ch.Owned(f).Has(r.priority) && r.action.Lookup?
      ensures !OwnedTable(ch.Configs(), TableId(f, r.table))
    {
      FitForeign(l, ch, f, r);
    }
  }

  /** From a fitting kernel any policy of the layout may be applied. */
  lemma FitStarts(l: Layout, k: KernelState, prev: Option<DesiredState>, main0: seq<Route>, c: Config)
    requires Fit(l, k) && LaidOut(c, l) && Policy.Valid(c)
    requires prev.Some? ==>
               && LaidOut(prev.value.config, l) && Policy.Valid(prev.value.config)
               && prev.value == Desired(prev.value.config, main0)
    ensures Starts(Attempt(k, prev, c, []))
  {
    var ch := Attempt(k, prev, c, []);
    DesiredConfig(c, []);
    DesiredWellCompiled(c, []);
    if prev.Some? {
      DesiredWellCompiled(prev.value.config, main0);
    }
    hide Fit, StartsFor, WellCompiled, Desired, Policy.Valid, LaidOut;
    assert AllLaidOut(ch.Configs(), l);
    FitStartsFor(l, ch, V4);
    FitStartsFor(l, ch, V6);
  }

  lemma GuardFits(l: Layout, c: Config, f: Family)
    requires LaidOut(c, l) && Policy.Valid(c)
    ensures FitRule(l, f, TransitionGuard(c, f))
  {
  }

  lemma CompiledFits(l: Layout, c: Config, f: Family, r: Rule)
    requires LaidOut(c, l) && Policy.Valid(c) && r in CompileRules(c, f)
    ensures FitRule(l, f, r)
  {
    CompiledRuleShape(c, f);
  }

  /** Wherever an attempt stopped, the kernel still fits. */
  lemma ShapedFits(l: Layout, ch: Change, k: KernelState)
    requires Fit(l, ch.before) && AllLaidOut(ch.Configs(), l) && Starts(ch) && Shaped(ch, k) && Tidy(k)
    ensures Fit(l, k)
  {
    ConfigsValid(ch);
    hide Starts, CompileRules, Scope, FitRule, Policy.Valid, LaidOut, Sorted, NoDup, ShapedFor;
    forall f: Family, r | r in k.Rules(f) ensures FitRule(l, f, r) {
      ShapedBoth(ch, k, f);
      ShapedOrigin(ch, f, k.Rules(f), r);
      if r in ch.Guards(f) {
        var c :| c in ch.Configs() && c.families.Has(f) && r == TransitionGuard(c, f);
        GuardFits(l, c, f);
      } else if r in ch.NextRules(f) {
        CompiledFits(l, ch.next.config, f, r);
      }
    }
  }

  lemma ShapedOrigin(ch: Change, f: Family, rs: seq<Rule>, r: Rule)
    requires ShapedFor(ch, f, rs) && r in rs
    ensures r in ch.before.Rules(f) || r in ch.Guards(f) || r in ch.NextRules(f)
  {
    SplitMembers(ch.Owned(f), rs);
    SplitMembers(ch.Owned(f), ch.before.Rules(f));
    if !ch.Owned(f).Has(r.priority) {
      assert r in Outside(ch.Owned(f), rs);
    }
  }

  lemma NothingNewFits(l: Layout, c: Config, before: KernelState, k: KernelState)
    requires Fit(l, before) && LaidOut(c, l) && Policy.Valid(c) && NothingNew([c, c], before, k) && Tidy(k)
    ensures Fit(l, k)
  {
    hide FitRule, Policy.Valid, Sorted, NoDup;
    forall f: Family, r | r in k.Rules(f) ensures FitRule(l, f, r) {
      if r !in before.Rules(f) {
        assert r == TransitionGuard(c, f);
        GuardFits(l, c, f);
      }
    }
  }

  lemma FewerFits(l: Layout, before: KernelState, k: KernelState)
    requires Fit(l, before) && Fewer(before, k) && Tidy(k)
    ensures Fit(l, k)
  {
    hide FitRule, Sorted, NoDup, Part;
    PartMembers(k.v4, before.v4);
    PartMembers(k.v6, before.v6);
    forall f: Family, r | r in k.Rules(f) ensures FitRule(l, f, r) {
      assert r in before.Rules(f);
    }
  }

  datatype Call = Applies(config: Config) | Refreshes | Begins | RollsBack(config: Config)

  predicate CallFits(c: Call, l: Layout) {
    c.Applies? || c.RollsBack? ==> LaidOut(c.config, l)
  }

  /** One call of a session: the kernel before and after it, what was applied, what it read
      and its part of the trace. */
  datatype Entry = Entry(before: KernelState, after: KernelState, applied: Option<DesiredState>, main: seq<Route>,
                         from: nat, to: nat)

  /** What each call of a session promises of its part of the trace. */
  ghost predicate Recorded(call: Call, e: Entry, trace: seq<KernelState>) {
    && e.from <= e.to <= |trace|
    && (call.Applies? ==> SafeTry(Try(e.before, e.applied, call.config, e.main, e.from, e.to), trace))
    && (call.Begins? ==> BlockedSince(e.before, trace[..e.to], e.from))
    && (call.Refreshes? && e.applied.Some? && MayRefresh(e.before, e.applied.value) ==>
          SafeSince(Attempt(e.before, e.applied, e.applied.value.config, e.main), trace[..e.to], e.from))
  }

  ghost predicate Session(m: Manager, l: Layout)
    reads m, m.adapter
  {
    m.Inv() && Fit(l, m.adapter.state) && (m.applied.Some? ==> LaidOut(m.applied.value.config, l))
  }

  lemma KeptFits(cs: seq<Config>, l: Layout, before: KernelState, k: KernelState)
    requires Fit(l, before) && Kept(cs, before, k)
    ensures Tidy(k) && Tidy(before) && OwnFamilies(before)
  {
    hide FitRule, ForeignKept;
  }

  /** One call, whatever earlier calls left behind and whichever of its own calls fail. */
  method OneCall(m: Manager, ghost l: Layout, call: Call) returns (ghost e: Entry)
    requires Session(m, l) && CallFits(call, l)
    modifies m, m.adapter
    ensures Session(m, l) && old(m.adapter.trace) <= m.adapter.trace
    ensures e.before == old(m.adapter.state) && e.after == m.adapter.state && e.applied == old(m.applied)
    ensures e.from == |old(m.adapter.trace)| && e.to == |m.adapter.trace|
    ensures Recorded(call, e, m.adapter.trace)
  {
    hide Fit, Kept, Starts, Safe, SafeSince, Shaped, Complete, MayRefresh, IsSnapshot, Desired, Policy.Valid, Tidy;
    hide Ready, Bare, Fewer, NothingNew, OwnFamilies, SafeTry, BlockedOrAs, LaidOut, Refreshed, OwnedEmpty;
    hide BlockedSince;
    ghost var before, was, main0, n := m.adapter.state, m.applied, m.appliedMain, |m.adapter.trace|;
    ghost var main: seq<Route> := [];
    FitFamilies(l, before);
    match call {
      case Applies(c) =>
        var ok;
        ghost var at;
        ok, main, at := m.Apply(c);
        KeptFits(RollbackConfigs(c, was), l, before, m.adapter.state);
        DesiredConfig(c, main);
        NothingSince(Attempt(before, was, c, main), m.adapter.trace);
        if Policy.Valid(c) {
          FitStarts(l, before, was, main0, c);
          StartsAnySnapshot(before, was, c, main);
          ShapedFits(l, Attempt(before, was, c, main), m.adapter.state);
        }
        TryIsSafe(Try(before, was, c, main, n, |m.adapter.trace|), m.adapter.trace);
      case Refreshes =>
        var ok;
        ok, main := m.Refresh();
        if was.Some? {
          DesiredConfig(was.value.config, main);
          assert RollbackConfigs(was.value.config, was) == [was.value.config, was.value.config];
          KeptFits([was.value.config, was.value.config], l, before, m.adapter.state);
          NothingNewFits(l, was.value.config, before, m.adapter.state);
        }
      case Begins =>
        var _ := m.BeginRouteChange();
        if was.Some? {
          assert RollbackConfigs(was.value.config, was) == [was.value.config, was.value.config];
          KeptFits([was.value.config, was.value.config], l, before, m.adapter.state);
          NothingNewFits(l, was.value.config, before, m.adapter.state);
        }
      case RollsBack(c) =>
        var _ := m.Rollback(c);
        KeptFits(RollbackConfigs(c, was), l, before, m.adapter.state);
        FewerFits(l, before, m.adapter.state);
    }
    assert m.adapter.trace[..|m.adapter.trace|] == m.adapter.trace;
    e := Entry(before, m.adapter.state, was, main, n, |m.adapter.trace|);
  }

  lemma FitFamilies(l: Layout, k: KernelState)
    requires Fit(l, k)
    ensures OwnFamilies(k)
  {
    hide FitRule;
  }

  /** The entries follow each other without a gap. */
  ghost predicate Chained(log: seq<Entry>, before: KernelState, after: KernelState, from: nat, to: nat) {
    if log == [] then before == after && from == to
    else
      var last := log[|log| - 1];
      last.after == after && last.to == to && Chained(log[..|log| - 1], before, last.before, from, last.from)
  }

  lemma RecordedLater(call: Call, e: Entry, trace: seq<KernelState>, more: seq<KernelState>)
    requires Recorded(call, e, trace) && trace <= more
    ensures Recorded(call, e, more)
  {
    hide SafeTry, BlockedSince, SafeSince, MayRefresh;
    assert more[..e.to] == trace[..e.to];
    if call.Applies? {
      SafeTryLater(Try(e.before, e.applied, call.config, e.main, e.from, e.to), trace, more);
    }
  }

  /** Any sequence of calls with policies of one layout. Whichever calls of the adapter fail,
      and however often, every Apply is safe from where it begins: nothing that a failed
      Apply, Refresh or Rollback leaves behind can spoil it. */
  method RunSession(m: Manager, ghost l: Layout, calls: seq<Call>) returns (ghost log: seq<Entry>)
    requires Session(m, l) && forall c | c in calls :: CallFits(c, l)
    modifies m, m.adapter
    ensures Session(m, l) && old(m.adapter.trace) <= m.adapter.trace && |log| == |calls|
    ensures Chained(log, old(m.adapter.state), m.adapter.state, |old(m.adapter.trace)|, |m.adapter.trace|)
    ensures forall i | 0 <= i < |calls| :: Recorded(calls[i], log[i], m.adapter.trace)
  {
    hide Session, Recorded, CallFits;
    log := [];
    for i := 0 to |calls|
      invariant Session(m, l) && old(m.adapter.trace) <= m.adapter.trace && |log| == i
      invariant Chained(log, old(m.adapter.state), m.adapter.state, |old(m.adapter.trace)|, |m.adapter.trace|)
      invariant forall j | 0 <= j < i :: Recorded(calls[j], log[j], m.adapter.trace)
    {
      ghost var trace := m.adapter.trace;
      assert calls[i] in calls;
      ghost var e := OneCall(m, l, calls[i]);
      forall j | 0 <= j < i ensures Recorded(calls[j], log[j], m.adapter.trace) {
        RecordedLater(calls[j], log[j], trace, m.adapter.trace);
      }
      assert (log + [e])[..i] == log;
      log := log + [e];
    }
  }
}
