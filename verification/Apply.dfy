/** The stages of one reconciliation. Each stage promises that every kernel state it
    passes through is safe, whether it finishes or stops at a failed call. */
module Stages {
  import opened Netip
  import opened Policy
  import opened Kernel
  import opened Transition
  import opened Safety
  import opened Steps
  import opened Adapters
  import opened Managers

  ghost predicate GuardsListed(ch: Change, guards: seq<Rule>) {
    forall g :: g in guards <==> g in ch.Guards(g.family)
  }

  /** Guarded, with nothing new yet and the guards' slots cleared of old rules. */
  ghost predicate Ready(ch: Change, k: KernelState) {
    Guarded(ch, k) && SlotsClear(ch, k) && OldOnly(ch, k)
  }

  /******* Stage 1: guards in *******/

  lemma AllInstalled(ch: Change, k: KernelState, guards: seq<Rule>)
    requires Shaped(ch, k) && GuardsListed(ch, guards)
    requires forall g | g in guards :: g in k.Rules(g.family)
    requires forall f: Family, g | g in ch.Guards(f) :: g.family == f
    ensures Guarded(ch, k)
  {
    forall f: Family, g | g in ch.Guards(f) ensures g in k.Rules(f) {
      assert g in guards;
    }
    assert forall g | g in ch.Guards(V4) :: g in k.Rules(V4);
    assert forall g | g in ch.Guards(V6) :: g in k.Rules(V6);
  }

  lemma GuardFamilies(ch: Change)
    requires Starts(ch)
    ensures forall f: Family, g | g in ch.Guards(f) :: g.family == f
  {
    forall f: Family, g | g in ch.Guards(f) ensures g.family == f {
      GuardFacts(ch, f, g);
    }
  }

  lemma AddedMembers(k: KernelState, r: Rule)
    ensures r in Added(k, r).Rules(r.family) && Added(k, r).tables == k.tables
    ensures forall f: Family, x :: x in Added(k, r).Rules(f) <==> x in k.Rules(f) || (f == r.family && x == r)
  {
    AddFacts(k.Rules(r.family), r);
  }

  ghost predicate BlockedSince(before: KernelState, trace: seq<KernelState>, n: nat) {
    forall i | n <= i < |trace| :: BlockedOrAs(before, trace[i])
  }

  lemma BlockedIsSafe(ch: Change, trace: seq<KernelState>, n: nat)
    requires BlockedSince(ch.before, trace, n)
    ensures SafeSince(ch, trace, n)
  {
    forall i | n <= i < |trace| ensures Safe(ch, trace[i]) {
      assert BlockedOrAs(ch.before, trace[i]);
    }
  }

  /** Rules that block everything and lie inside the blocks of the configurations. */
  ghost predicate Blockers(cs: seq<Config>, guards: seq<Rule>) {
    forall g | g in guards :: CatchAll(g) && Scope(cs, g.family).Has(g.priority)
  }

  lemma GuardsBlock(cs: seq<Config>, guards: seq<Rule>)
    requires (forall c | c in cs :: Policy.Valid(c)) && forall g | g in guards :: g in GuardSet(cs, g.family)
    ensures Blockers(cs, guards)
  {
    forall g | g in guards ensures CatchAll(g) && Scope(cs, g.family).Has(g.priority) {
      ScopeHas(cs, g.family, g.priority);
    }
  }

  /** A catch-all rule only blocks, whatever the kernel holds. */
  lemma BlockerBlocks(before: KernelState, k: KernelState, g: Rule)
    requires BlockedOrAs(before, k) && CatchAll(g)
    ensures BlockedOrAs(before, Added(k, g))
  {
    var rs := k.Rules(g.family);
    if g !in rs {
      WithoutInsert({g}, rs, g);
      WithoutNone({g}, rs);
      forall p: Packet ensures Added(k, g).Route(p) == Blocked || Added(k, g).Route(p) == k.Route(p) {
        CatchAllOnlyBlocks({g}, InsertRule(rs, g), k.tables, p);
      }
    }
  }

  lemma AddedKept(cs: seq<Config>, before: KernelState, k: KernelState, g: Rule)
    requires Kept(cs, before, k) && Scope(cs, g.family).Has(g.priority)
    ensures Kept(cs, before, Added(k, g))
  {
    hide Scope, Outside, InsertRule, Sorted, NoDup, OwnedTable;
    AddFacts(k.Rules(g.family), g);
    OutsideInsert(Scope(cs, g.family), k.Rules(g.family), g);
  }

  function AddedAll(k: KernelState, gs: seq<Rule>): KernelState {
    if gs == [] then k else Added(AddedAll(k, gs[..|gs| - 1]), gs[|gs| - 1])
  }

  function RemovedAll(k: KernelState, gs: seq<Rule>): KernelState {
    if gs == [] then k else Removed(RemovedAll(k, gs[..|gs| - 1]), gs[|gs| - 1])
  }

  /** The guards go in one by one. From any kernel this only blocks. From the start of a
      change it leads to a guarded kernel. */
  method InstallGuards(a: Adapter, ghost ch: Change, guards: seq<Rule>) returns (ok: bool)
    requires a.Valid() && Blockers(ch.Configs(), guards) && GuardsListed(ch, guards)
    modifies a
    ensures old(a.calls) <= a.calls && (a.NoFailure(old(a.calls), a.calls) ==> ok)
    ensures a.Valid() && old(a.trace) <= a.trace && BlockedSince(old(a.state), a.trace, |old(a.trace)|)
    ensures BlockedOrAs(old(a.state), a.state) && NothingNew(ch.Configs(), old(a.state), a.state)
    ensures Kept(ch.Configs(), old(a.state), a.state) && a.state.tables == old(a.state).tables
    ensures ok ==> a.state == AddedAll(old(a.state), guards) && forall g | g in guards :: g in a.state.Rules(g.family)
    ensures Starts(ch) && old(a.state) == ch.before ==> Installing(ch, a.state) && (ok ==> Guarded(ch, a.state))
  {
    hide Starts, Installing, BlockedOrAs, Added, Guarded, Kept, GuardsListed, Scope, GuardSet;
    ghost var was := a.state;
    ghost var starts := Starts(ch) && was == ch.before;
    if starts {
      StartInstalling(ch);
    }
    KeptSelf(ch.Configs(), was);
    BlockedSelf(was);
    for i := 0 to |guards|
      invariant old(a.calls) <= a.calls
      invariant a.Valid() && old(a.trace) <= a.trace && BlockedSince(was, a.trace, |old(a.trace)|)
      invariant Kept(ch.Configs(), was, a.state) && BlockedOrAs(was, a.state)
      invariant a.state == AddedAll(was, guards[..i]) && a.state.tables == was.tables
      invariant starts ==> Installing(ch, a.state)
      invariant NothingNew(ch.Configs(), was, a.state)
      invariant forall j | 0 <= j < i :: guards[j] in a.state.Rules(guards[j].family)
    {
      var guard := guards[i];
      assert guard in guards;
      AddedMembers(a.state, guard);
      assert guards[..i + 1][..i] == guards[..i];
      BlockerBlocks(was, a.state, guard);
      AddedKept(ch.Configs(), was, a.state, guard);
      ListedGuard(ch, guards, guard);
      if starts {
        InstallStep(ch, a.state, guard);
      }
      var added := a.AddRule(guard);
      if !added {
        return false;
      }
    }
    assert guards[..|guards|] == guards;
    if starts {
      InstallingShaped(ch, a.state);
      GuardFamilies(ch);
      AllInstalled(ch, a.state, guards);
    }
    return true;
  }

  lemma InstallingShaped(ch: Change, k: KernelState)
    requires Installing(ch, k)
    ensures Shaped(ch, k)
  {
  }

  lemma ListedGuard(ch: Change, guards: seq<Rule>, g: Rule)
    requires GuardsListed(ch, guards) && g in guards
    ensures g in ch.Guards(g.family)
  {
  }

  lemma BlockedSelf(k: KernelState)
    ensures BlockedOrAs(k, k)
  {
  }

  /******* Stage 2: old rules off the guards' slots *******/

  lemma ObsoleteRule(ch: Change, r: Rule, guards: seq<Rule>)
    requires Starts(ch) && GuardsListed(ch, guards) && ch.prev.Some? && r in ch.prev.value.rules
    ensures r in ch.PrevRules(r.family)
    ensures KeepRule(r, guards) <==> r in ch.Guards(r.family)
    ensures SharesGuardSlot(r, guards) ==> r !in ch.next.rules
  {
    var f := r.family;
    CompiledRuleShape(ch.prev.value.config, f);
    if KeepRule(r, guards) {
      var g :| g in guards && (r == g || r == ListedRule(g));
      NotListedGuard(ch, r, g);
    }
    if SharesGuardSlot(r, guards) {
      var g :| g in guards && r.family == g.family && r.priority == g.priority;
      GuardSlotObsolete(ch, f, r, g);
    }
  }

  /** No compiled rule looks like a listed guard: lookups name a table. */
  lemma NotListedGuard(ch: Change, r: Rule, g: Rule)
    requires Starts(ch) && r in ch.PrevRules(r.family) && g in ch.Guards(g.family)
    ensures r != ListedRule(g)
  {
    GuardTable(ch, g.family, g);
    CompiledRuleShape(ch.prev.value.config, r.family);
    ConfigsValid(ch);
  }

  lemma GuardTable(ch: Change, f: Family, g: Rule)
    requires g in ch.Guards(f)
    ensures g.table == 0
  {
  }

  ghost predicate SlotCleared(ch: Change, k: KernelState, r: Rule) {
    r !in k.Rules(r.family) || r in ch.Guards(r.family)
  }

  lemma SlotsCleared(ch: Change, k: KernelState, guards: seq<Rule>)
    requires Starts(ch) && Guarded(ch, k) && OldOnly(ch, k) && GuardsListed(ch, guards)
    requires ch.prev.Some? ==>
               forall r | r in ch.prev.value.rules && SharesGuardSlot(r, guards) :: SlotCleared(ch, k, r)
    ensures Ready(ch, k)
  {
    forall f: Family, g, x | g in ch.Guards(f) && x in k.Rules(f) && x.priority == g.priority
      ensures x == g || x in ch.NextRules(f)
    {
      SlotIsClear(ch, k, guards, f, g, x);
    }
  }

  lemma SlotIsClear(ch: Change, k: KernelState, guards: seq<Rule>, f: Family, g: Rule, x: Rule)
    requires Starts(ch) && Guarded(ch, k) && GuardsListed(ch, guards)
    requires ch.prev.Some? ==>
               forall r | r in ch.prev.value.rules && SharesGuardSlot(r, guards) :: SlotCleared(ch, k, r)
    requires g in ch.Guards(f) && x in k.Rules(f) && x.priority == g.priority
    ensures x == g || x in ch.NextRules(f)
  {
    hide Starts, StartsFor, ShapedFor, CompileRules, Scope;
    StartsBoth(ch, f);
    ShapedBoth(ch, k, f);
    GuardFacts(ch, f, g);
    ShapedKnown(ch, f, k.Rules(f), x);
    if x in ch.PrevRules(f) {
      OldRuleListed(ch, f, x);
      assert g in guards && SharesGuardSlot(x, guards);
      assert SlotCleared(ch, k, x);
    }
    if x in ch.Guards(f) {
      GuardsByPriority(ch, f, x, g);
    }
  }

  lemma OldRuleListed(ch: Change, f: Family, r: Rule)
    requires Starts(ch) && r in ch.PrevRules(f)
    ensures r.family == f && r in ch.prev.value.rules
  {
    RuleOwned(ch, f, r);
  }

  /** Every rule of a compiled state lies in the blocks of its configuration. */
  lemma CompiledInBlocks(cs: seq<Config>, d: DesiredState, r: Rule)
    requires WellCompiled(d) && d.config in cs && r in d.rules
    ensures Scope(cs, r.family).Has(r.priority)
  {
    CompiledRuleShape(d.config, r.family);
    hide CompileRules, Scope;
    ScopeHas(cs, r.family, r.priority);
  }

  method ClearGuardSlots(a: Adapter, ghost ch: Change, prev: Option<DesiredState>, wanted: seq<Rule>, guards: seq<Rule>)
    returns (ok: bool)
    requires a.Valid() && prev == ch.prev && wanted == ch.next.rules && GuardsListed(ch, guards)
    requires prev.Some? ==> WellCompiled(prev.value)
    modifies a
    ensures old(a.calls) <= a.calls && (a.NoFailure(old(a.calls), a.calls) ==> ok)
    ensures a.Valid() && old(a.trace) <= a.trace
    ensures Kept(ch.Configs(), old(a.state), a.state) && a.state.tables == old(a.state).tables
    ensures old(Starts(ch) && Guarded(ch, a.state) && OldOnly(ch, a.state)) ==>
              SafeSince(ch, a.trace, |old(a.trace)|) && Guarded(ch, a.state) && (ok ==> Ready(ch, a.state))
  {
    hide Starts, Guarded, Safe, OldOnly, Removed, Ready;
    hide GuardSet, SharesGuardSlot, KeepRule, Kept, SlotCleared;
    hide WellCompiled, Scope, GuardsListed;
    ghost var behind := Starts(ch) && Guarded(ch, a.state) && OldOnly(ch, a.state);
    KeptSelf(ch.Configs(), a.state);
    var rules := if prev.Some? then prev.value.rules else [];
    for i := 0 to |rules|
      invariant old(a.calls) <= a.calls
      invariant a.Valid() && old(a.trace) <= a.trace
      invariant Kept(ch.Configs(), old(a.state), a.state) && a.state.tables == old(a.state).tables
      invariant behind ==>
                  && SafeSince(ch, a.trace, |old(a.trace)|)
                  && Guarded(ch, a.state) && OldOnly(ch, a.state)
                  && forall j | 0 <= j < i && SharesGuardSlot(rules[j], guards) :: SlotCleared(ch, a.state, rules[j])
    {
      var r := rules[i];
      assert r in rules;
      CompiledInBlocks(ch.Configs(), prev.value, r);
      if behind {
        CleanStep(ch, a.state, r, guards, rules[..i]);
        assert forall j | 0 <= j < i :: rules[j] in rules[..i];
      }
      if r in wanted || KeepRule(r, guards) {
        continue;
      }
      if !SharesGuardSlot(r, guards) {
        continue;
      }
      RemovedTables(a.state, r);
      RemovedKept(ch.Configs(), old(a.state), a.state, r);
      var deleted := a.DeleteRule(r);
      if behind {
        GuardedIsSafe(ch, a.state);
      }
      if !deleted {
        return false;
      }
    }
    if behind {
      SlotsCleared(ch, a.state, guards);
    }
    return true;
  }

  /** One old rule: kept because it is a guard, not on a slot, or deleted. */
  lemma CleanStep(ch: Change, k: KernelState, r: Rule, guards: seq<Rule>, done: seq<Rule>)
    requires Starts(ch) && GuardsListed(ch, guards) && ch.prev.Some? && r in ch.prev.value.rules
    requires Guarded(ch, k) && OldOnly(ch, k)
    requires forall x | x in done && SharesGuardSlot(x, guards) :: SlotCleared(ch, k, x)
    ensures SharesGuardSlot(r, guards) ==> r !in ch.next.rules
    ensures KeepRule(r, guards) ==> SlotCleared(ch, k, r)
    ensures SharesGuardSlot(r, guards) && !KeepRule(r, guards) ==>
              && Guarded(ch, Removed(k, r)) && OldOnly(ch, Removed(k, r)) && SlotCleared(ch, Removed(k, r), r)
              && forall x | x in done && SharesGuardSlot(x, guards) :: SlotCleared(ch, Removed(k, r), x)
  {
    ObsoleteRule(ch, r, guards);
    if SharesGuardSlot(r, guards) && !KeepRule(r, guards) {
      var g :| g in guards && r.family == g.family && r.priority == g.priority;
      ListedGuard(ch, guards, g);
      hide Starts, Guarded, OldOnly, Removed, GuardSet, SharesGuardSlot, KeepRule, GuardsListed;
      OldRuleNotGuard(ch, r, g);
      ClearStep(ch, k, r, g);
      FewerRules(ch, k, Removed(k, r));
    }
  }

  lemma RemovedTables(k: KernelState, r: Rule)
    ensures Removed(k, r).tables == k.tables
    ensures forall f: Family, x | x in Removed(k, r).Rules(f) :: x in k.Rules(f)
  {
    RemoveFacts(k.Rules(r.family), r);
  }

  /** The request for an old rule does not match a guard. */
  lemma OldRuleNotGuard(ch: Change, r: Rule, g: Rule)
    requires Starts(ch) && r in ch.PrevRules(r.family) && r !in ch.Guards(r.family) && g in ch.Guards(r.family)
    ensures !SpecMatches(r, g)
  {
    hide Starts, CompileRules, SourceRoutesOk, MarksOverlap;
    GuardTable(ch, r.family, g);
    GuardFacts(ch, r.family, g);
    CompiledRuleShape(ch.prev.value.config, r.family);
    ConfigsValid(ch);
    if SpecMatches(r, g) {
      assert r.mask == 0;
      assert r.action.Unreachable?;
      UnmaskedRule(ch.prev.value.config, r.family, r);
      GuardsBySlot(ch, r, g);
    }
  }

  lemma UnmaskedRule(c: Config, f: Family, r: Rule)
    requires Policy.Valid(c) && r in CompileRules(c, f) && r.mask == 0
    ensures r.mark == 0
  {
  }

  lemma GuardsBySlot(ch: Change, r: Rule, g: Rule)
    requires g in ch.Guards(r.family) && r.family == g.family && r.priority == g.priority
    requires r.action.Unreachable? && r.table == 0 && r.mark == 0 && r.mask == 0
    ensures r == g
  {
  }

  /******* Stages 3 and 4: tables *******/

  lemma ReadyTables(ch: Change, before: KernelState, k: KernelState)
    requires Ready(ch, before) && k.v4 == before.v4 && k.v6 == before.v6 && ForeignTablesKept(ch, k.tables)
    ensures Ready(ch, k)
  {
    hide ShapedFor;
    assert forall f: Family :: k.Rules(f) == before.Rules(f);
  }

  lemma ReadyFlushed(ch: Change, before: KernelState, k: KernelState, id: TableId)
    requires Ready(ch, before) && OnlyTable(before, k, id) && OwnedTable(ch.Configs(), id)
    ensures Ready(ch, k)
  {
    hide ShapedFor;
    assert ForeignTablesKept(ch, before.tables);
    ReadyTables(ch, before, k);
  }

  lemma ReadyIsSafe(ch: Change, k: KernelState)
    requires Starts(ch) && Ready(ch, k)
    ensures Safe(ch, k)
  {
    hide Starts, Safe, Guarded;
    GuardedIsSafe(ch, k);
  }

  lemma AllFlushed(ch: Change, k: KernelState)
    requires Ready(ch, k)
    requires forall id: TableId | OwnedTable(ch.Configs(), id) :: TableOf(k.tables, id) == map[]
    ensures SameTables(k.tables, Flushed(ch.Configs(), ch.before.tables))
  {
    hide ShapedFor;
    assert ForeignTablesKept(ch, k.tables);
  }

  lemma OnlyTableKept(cs: seq<Config>, before: KernelState, k: KernelState, id: TableId)
    requires OwnedTable(cs, id) && OnlyTable(before, k, id)
    ensures Kept(cs, before, k)
  {
  }

  method FlushTargets(a: Adapter, ghost ch: Change, targets: seq<TableId>) returns (ok: bool)
    requires a.Valid()
    requires forall id: TableId :: id in targets <==> OwnedTable(ch.Configs(), id)
    modifies a
    ensures old(a.calls) <= a.calls && (a.NoFailure(old(a.calls), a.calls) ==> ok)
    ensures a.Valid() && old(a.trace) <= a.trace && Kept(ch.Configs(), old(a.state), a.state)
    ensures Starts(ch) && Ready(ch, old(a.state)) ==>
              && Ready(ch, a.state) && SafeSince(ch, a.trace, |old(a.trace)|)
              && (ok ==> SameTables(a.state.tables, Flushed(ch.Configs(), ch.before.tables)))
  {
    hide Starts, Safe, Ready, OwnedTable, Kept;
    ghost var ready := Starts(ch) && Ready(ch, a.state);
    KeptSelf(ch.Configs(), a.state);
    for i := 0 to |targets|
      invariant old(a.calls) <= a.calls
      invariant a.Valid() && old(a.trace) <= a.trace && Kept(ch.Configs(), old(a.state), a.state)
      invariant ready ==> Ready(ch, a.state) && SafeSince(ch, a.trace, |old(a.trace)|)
      invariant forall j | 0 <= j < i :: TableOf(a.state.tables, targets[j]) == map[]
    {
      ghost var k, n := a.state, |a.trace|;
      assert targets[i] in targets;
      var flushed := FlushTableFamily(a, targets[i].family, targets[i].table);
      OnlyTableKept(ch.Configs(), k, a.state, targets[i]);
      KeptTrans(ch.Configs(), old(a.state), k, a.state);
      if ready {
        forall j | n <= j < |a.trace| ensures Safe(ch, a.trace[j]) {
          ReadyFlushed(ch, k, a.trace[j], targets[i]);
          ReadyIsSafe(ch, a.trace[j]);
        }
        ReadyFlushed(ch, k, a.state, targets[i]);
      }
      if !flushed {
        return false;
      }
    }
    if ready {
      forall id: TableId | OwnedTable(ch.Configs(), id) ensures TableOf(a.state.tables, id) == map[] {
        assert id in targets;
      }
      AllFlushed(ch, a.state);
    }
    return true;
  }

  lemma SameReplace(ts: Tables, us: Tables, r: Route)
    requires SameTables(ts, us)
    ensures SameTables(Kernel.ReplaceRoute(ts, r), Kernel.ReplaceRoute(us, r))
  {
    assert TableOf(ts, IdOf(r)) == TableOf(us, IdOf(r));
    forall id: TableId
      ensures TableOf(Kernel.ReplaceRoute(ts, r), id) == TableOf(Kernel.ReplaceRoute(us, r), id)
    {
      assert TableOf(ts, id) == TableOf(us, id);
    }
  }

  lemma ReadyReplaced(ch: Change, k: KernelState, r: Route)
    requires Ready(ch, k) && OwnedTable(ch.Configs(), IdOf(r))
    ensures Ready(ch, k.(tables := Kernel.ReplaceRoute(k.tables, r)))
  {
    ReadyFlushed(ch, k, k.(tables := Kernel.ReplaceRoute(k.tables, r)), IdOf(r));
  }

  /** Behind the guards, with known tables. */
  ghost predicate Behind(ch: Change, k: KernelState, start: Tables) {
    Starts(ch) && Ready(ch, k) && SameTables(k.tables, start)
  }

  /** From any kernel only the tables of the routes change; behind the guards every state is safe. */
  method InstallRoutes(a: Adapter, ghost ch: Change, routes: seq<Route>, ghost start: Tables) returns (ok: bool)
    requires a.Valid() && SameTables(a.state.tables, start)
    requires forall r | r in routes :: OwnedTable(ch.Configs(), IdOf(r))
    modifies a
    ensures old(a.calls) <= a.calls && (a.NoFailure(old(a.calls), a.calls) ==> ok)
    ensures a.Valid() && old(a.trace) <= a.trace
    ensures a.state.v4 == old(a.state).v4 && a.state.v6 == old(a.state).v6
    ensures ok ==> SameTables(a.state.tables, InstallAll(start, routes))
    ensures forall id: TableId | (forall r | r in routes :: IdOf(r) != id) ::
              TableOf(a.state.tables, id) == TableOf(old(a.state).tables, id)
    ensures old(Behind(ch, a.state, start)) ==> Ready(ch, a.state) && SafeSince(ch, a.trace, |old(a.trace)|)
  {
    hide Starts, Safe, Ready, OwnedTable;
    ghost var behind := Behind(ch, a.state, start);
    for i := 0 to |routes|
      invariant old(a.calls) <= a.calls
      invariant forall id: TableId | (forall r | r in routes :: IdOf(r) != id) ::
                  TableOf(a.state.tables, id) == TableOf(old(a.state).tables, id)
      invariant a.Valid() && old(a.trace) <= a.trace
      invariant a.state.v4 == old(a.state).v4 && a.state.v6 == old(a.state).v6
      invariant SameTables(a.state.tables, InstallAll(start, routes[..i]))
      invariant behind ==> Ready(ch, a.state) && SafeSince(ch, a.trace, |old(a.trace)|)
    {
      assert routes[i] in routes;
      assert routes[..i + 1][..i] == routes[..i];
      SameReplace(a.state.tables, InstallAll(start, routes[..i]), routes[i]);
      if behind {
        ReadyReplaced(ch, a.state, routes[i]);
      }
      var replaced := a.ReplaceRoute(routes[i]);
      if behind {
        ReadyIsSafe(ch, a.state);
      }
      if !replaced {
        return false;
      }
    }
    assert routes[..|routes|] == routes;
    return true;
  }

  /******* Stage 5: old rules out *******/

  ghost predicate OnSlot(ch: Change, f: Family, x: Rule) {
    exists g :: g in ch.Guards(f) && g.priority == x.priority
  }

  /** Inside the blocks only guards are left, and lookups of the new policy that were on a
      guard's slot from the start. */
  ghost predicate Bare(ch: Change, k: KernelState) {
    forall f: Family, x | x in k.Rules(f) && ch.Owned(f).Has(x.priority) ::
      x in ch.Guards(f) || (x in ch.NextRules(f) && x in ch.before.Rules(f) && OnSlot(ch, f, x) && x.action.Lookup?)
  }

  /** Inside the blocks only guards are left. */
  ghost predicate GuardsOnly(ch: Change, k: KernelState) {
    forall f: Family, x | x in k.Rules(f) && ch.Owned(f).Has(x.priority) :: x in ch.Guards(f)
  }

  /** No rule of the new policy was on a guard's slot from the start. */
  ghost predicate NewOffSlots(ch: Change) {
    forall f: Family, x | x in ch.NextRules(f) && x in ch.before.Rules(f) :: !OnSlot(ch, f, x)
  }

  lemma BareIsGuards(ch: Change, k: KernelState)
    requires NewOffSlots(ch) && Bare(ch, k)
    ensures GuardsOnly(ch, k)
  {
    hide OnSlot, CompileRules, GuardSet, Scope;
  }

  /** With equal bases no compiled rule is on a guard's slot. */
  lemma SameBaseOffSlots(ch: Change)
    requires ch.prev.Some? ==> ch.prev.value.config.base == ch.next.config.base
    ensures NewOffSlots(ch)
  {
    forall f: Family, x | x in ch.NextRules(f) ensures !OnSlot(ch, f, x) {
      CompiledRuleShape(ch.next.config, f);
    }
  }

  ghost predicate ScopeClear(k: KernelState, s: RuleScope, guards: seq<Rule>) {
    forall x | x in k.Rules(s.family) :: !Dooms(s.config, guards, x)
  }

  lemma ScopesCleared(ch: Change, k: KernelState, scopes: seq<RuleScope>, guards: seq<Rule>)
    requires Starts(ch) && ScopesOf(ch.Configs(), scopes) && GuardsListed(ch, guards) && Ready(ch, k)
    requires forall s | s in scopes :: ScopeClear(k, s, guards)
    ensures Bare(ch, k)
  {
    hide Starts, Guarded, Ready, Scope, ScopesOf, ScopeClear, GuardsListed, GuardSet, CompileRules, OnSlot;
    forall f: Family, x | x in k.Rules(f) && ch.Owned(f).Has(x.priority)
      ensures x in ch.Guards(f)
           || (x in ch.NextRules(f) && x in ch.before.Rules(f) && OnSlot(ch, f, x) && x.action.Lookup?)
    {
      KeptInScopes(ch, k, scopes, guards, f, x);
      KeptIsBare(ch, k, guards, f, x);
    }
  }

  lemma KeptInScopes(ch: Change, k: KernelState, scopes: seq<RuleScope>, guards: seq<Rule>, f: Family, x: Rule)
    requires ScopesOf(ch.Configs(), scopes) && forall s | s in scopes :: ScopeClear(k, s, guards)
    requires x in k.Rules(f) && ch.Owned(f).Has(x.priority)
    ensures KeepRule(ListedRule(x), guards)
  {
    ScopeHas(ch.Configs(), f, x.priority);
    var c :| c in ch.Configs() && c.families.Has(f) && c.base <= x.priority < c.base + c.span;
    assert HasScope(scopes, f, c.base, c.span);
    var s :| s in scopes && s.family == f && s.config.base == c.base && s.config.span == c.span;
    assert ScopeClear(k, s, guards);
  }

  lemma KeptIsBare(ch: Change, k: KernelState, guards: seq<Rule>, f: Family, x: Rule)
    requires Starts(ch) && GuardsListed(ch, guards) && Ready(ch, k)
    requires x in k.Rules(f) && ch.Owned(f).Has(x.priority) && KeepRule(ListedRule(x), guards)
    ensures x in ch.Guards(f)
         || (x in ch.NextRules(f) && x in ch.before.Rules(f) && OnSlot(ch, f, x) && x.action.Lookup?)
  {
    ShapedBoth(ch, k, f);
    assert OldOnlyFor(ch, f, k.Rules(f));
    var g :| g in guards && (ListedRule(x) == g || ListedRule(x) == ListedRule(g));
    ListedGuard(ch, guards, g);
    GuardTable(ch, g.family, g);
    GuardFacts(ch, g.family, g);
    assert x.family == f && g in ch.Guards(f) && x.priority == g.priority;
    if x in ch.NextRules(f) && x.action.Unreachable? {
      CompiledRuleShape(ch.next.config, f);
      GuardsBySlot(ch, x, g);
    }
  }

  lemma GuardsPlain(ch: Change, guards: seq<Rule>)
    requires Starts(ch) && GuardsListed(ch, guards)
    ensures Plain(guards)
  {
    forall g | g in guards ensures CatchAll(g) && g.table == 0 && g.mark == 0 {
      ListedGuard(ch, guards, g);
      GuardFacts(ch, g.family, g);
    }
  }

  lemma ReadyPruned(ch: Change, before: KernelState, k: KernelState, s: RuleScope, guards: seq<Rule>)
    requires Starts(ch) && Ready(ch, before) && GuardsListed(ch, guards)
    requires s.config in ch.Configs() && s.config.families.Has(s.family)
    requires Pruned(before, k, s.family, BlockOf(s.config))
    requires Spared(s.config, guards, before.Rules(s.family), k.Rules(s.family))
    ensures Ready(ch, k) && k.tables == before.tables
  {
    GuardFamilies(ch);
    hide Starts, ShapedFor, SlotsClear, OldOnly, GuardSet;
    forall g | g in ch.Guards(s.family) ensures g in k.Rules(s.family) {
      assert g in guards && KeepRule(ListedRule(g), guards);
      assert g in before.Rules(s.family);
    }
    PrunedGuarded(ch, before, k, s.config, s.family);
    FewerRules(ch, before, k);
  }

  lemma ScopeStaysClear(before: KernelState, k: KernelState, f: Family, w: Selection, s: RuleScope, guards: seq<Rule>)
    requires ScopeClear(before, s, guards) && Pruned(before, k, f, w)
    ensures ScopeClear(k, s, guards)
  {
    PartMembers(k.Rules(f), before.Rules(f));
  }

  lemma PrunedKept(cs: seq<Config>, before: KernelState, k: KernelState, s: RuleScope)
    requires s.config in cs && s.config.families.Has(s.family)
    requires Pruned(before, k, s.family, BlockOf(s.config))
    ensures Kept(cs, before, k)
  {
    hide Kernel.Sorted, NoDup, Part, Outside, Scope, OwnedTable;
    var f := s.family;
    BlockInScope(cs, s.config, f);
    OutsideCoarser(BlockOf(s.config), Scope(cs, f), k.Rules(f), before.Rules(f));
    PartMembers(k.Rules(f), before.Rules(f));
    PartSorted(k.Rules(f), before.Rules(f));
    if f.V4? {
      assert k.Rules(V6) == before.Rules(V6);
    } else {
      assert k.Rules(V4) == before.Rules(V4);
    }
  }

  method PruneScopes(a: Adapter, ghost ch: Change, scopes: seq<RuleScope>, guards: seq<Rule>) returns (ok: bool)
    requires a.Valid() && OwnFamilies(a.state) && ScopesOf(ch.Configs(), scopes) && GuardsListed(ch, guards)
    modifies a
    ensures old(a.calls) <= a.calls && (a.NoFailure(old(a.calls), a.calls) ==> ok)
    ensures a.Valid() && old(a.trace) <= a.trace
    ensures Kept(ch.Configs(), old(a.state), a.state) && a.state.tables == old(a.state).tables
    ensures Starts(ch) && Ready(ch, old(a.state)) ==>
              Ready(ch, a.state) && SafeSince(ch, a.trace, |old(a.trace)|) && (ok ==> Bare(ch, a.state))
  {
    hide Starts, Safe, Ready, Pruned, ScopeClear, Bare, GuardsListed, Kept, Spared, Plain, Dooms, BlockOf;
    ghost var ready := Starts(ch) && Ready(ch, a.state);
    KeptSelf(ch.Configs(), a.state);
    if ready {
      GuardsPlain(ch, guards);
    }
    for i := 0 to |scopes|
      invariant old(a.calls) <= a.calls && OwnFamilies(a.state)
      invariant a.Valid() && old(a.trace) <= a.trace
      invariant Kept(ch.Configs(), old(a.state), a.state) && a.state.tables == old(a.state).tables
      invariant ready ==>
                  && Ready(ch, a.state) && SafeSince(ch, a.trace, |old(a.trace)|)
                  && forall j | 0 <= j < i :: ScopeClear(a.state, scopes[j], guards)
    {
      var s := scopes[i];
      assert s in scopes;
      ghost var k, n := a.state, |a.trace|;
      var pruned := DeleteOwnedRules(a, s.config, s.family, guards);
      PrunedKept(ch.Configs(), k, a.state, s);
      KeptTrans(ch.Configs(), old(a.state), k, a.state);
      PrunedTables(k, a.state, s.family, BlockOf(s.config));
      if ready {
        forall j | n <= j < |a.trace| ensures Safe(ch, a.trace[j]) {
          ReadyPruned(ch, k, a.trace[j], s, guards);
          ReadyIsSafe(ch, a.trace[j]);
        }
        ReadyPruned(ch, k, a.state, s, guards);
      }
      if !pruned {
        return false;
      }
      if ready {
        forall j | 0 <= j < i ensures ScopeClear(a.state, scopes[j], guards) {
          ScopeStaysClear(k, a.state, s.family, BlockOf(s.config), scopes[j], guards);
        }
        ScopeIsClear(a.state, s, guards);
      }
    }
    if ready {
      ScopesCleared(ch, a.state, scopes, guards);
    }
    return true;
  }

  lemma PrunedTables(before: KernelState, k: KernelState, f: Family, s: Selection)
    requires Pruned(before, k, f, s)
    ensures k.tables == before.tables
  {
  }

  lemma ScopeIsClear(k: KernelState, s: RuleScope, guards: seq<Rule>)
    requires forall x | x in k.Rules(s.family) :: !Dooms(s.config, guards, x)
    ensures ScopeClear(k, s, guards)
  {
  }

  /******* Stage 6: new rules in *******/

  /** Inside the blocks there are guards and new rules only, the first ones for certain. */
  ghost predicate AddingFor(ch: Change, f: Family, rs: seq<Rule>, done: seq<Rule>) {
    && (forall x | x in rs && ch.Owned(f).Has(x.priority) :: x in ch.Guards(f) || x in ch.NextRules(f))
    && (forall r | r in done && r.family == f :: r in rs)
  }

  ghost predicate Adding(ch: Change, k: KernelState, done: seq<Rule>) {
    && Guarded(ch, k) && GuardsFirst(ch, k)
    && AddingFor(ch, V4, k.v4, done) && AddingFor(ch, V6, k.v6, done)
  }

  lemma AddOne(ch: Change, k: KernelState, done: seq<Rule>, r: Rule)
    requires Starts(ch) && Adding(ch, k, done) && r in ch.NextRules(r.family)
    ensures Adding(ch, Added(k, r), done + [r]) && Added(k, r).tables == k.tables
  {
    hide Starts, Guarded, GuardsFirst, AddRule, AddingFor;
    AddStep(ch, k, r);
    var l := Added(k, r);
    AddFacts(k.Rules(r.family), r);
    AddOneFor(ch, V4, k.Rules(V4), l.Rules(V4), done, r);
    AddOneFor(ch, V6, k.Rules(V6), l.Rules(V6), done, r);
  }

  lemma AddOneFor(ch: Change, f: Family, rs: seq<Rule>, more: seq<Rule>, done: seq<Rule>, r: Rule)
    requires AddingFor(ch, f, rs, done) && r in ch.NextRules(r.family)
    requires forall x :: x in more <==> x in rs || (f == r.family && x == r)
    ensures AddingFor(ch, f, more, done + [r])
  {
  }

  lemma StartAddingFor(ch: Change, k: KernelState, f: Family)
    requires Bare(ch, k)
    ensures AddingFor(ch, f, k.Rules(f), [])
  {
  }

  lemma StartAdding(ch: Change, k: KernelState)
    requires Starts(ch) && Ready(ch, k) && Bare(ch, k)
    ensures Adding(ch, k, [])
  {
    hide Starts, Guarded, AddingFor, SlotsClear, GuardsFirst, OldOnly, GuardSet, Scope, CompileRules;
    forall f: Family, g, x | g in ch.Guards(f) && x in k.Rules(f) && x.priority == g.priority && x != g
      ensures x.action.Lookup?
    {
      GuardFacts(ch, f, g);
      if x in ch.Guards(f) {
        GuardsByPriority(ch, f, x, g);
      }
    }
    LookupsLast(ch, k);
    StartAddingFor(ch, k, V4);
    StartAddingFor(ch, k, V6);
  }

  lemma AddingIsSafe(ch: Change, k: KernelState, done: seq<Rule>)
    requires Starts(ch) && Adding(ch, k, done)
    ensures Safe(ch, k)
  {
    hide Starts, Guarded, Safe;
    GuardedIsSafe(ch, k);
  }

  lemma AddingGuarded(ch: Change, k: KernelState, done: seq<Rule>)
    requires Adding(ch, k, done)
    ensures Guarded(ch, k)
  {
  }

  lemma WantedRule(ch: Change, r: Rule)
    requires Starts(ch)
    ensures r in ch.next.rules <==> r in ch.NextRules(r.family)
  {
  }

  /** Adds the compiled rules in order. If the very first call fails, nothing has changed. */
  method AddRules(a: Adapter, ghost ch: Change, rules: seq<Rule>) returns (ok: bool)
    requires a.Valid() && rules == ch.next.rules && WellCompiled(ch.next)
    modifies a
    ensures old(a.calls) <= a.calls && (a.NoFailure(old(a.calls), a.calls) ==> ok)
    ensures a.Valid() && old(a.trace) <= a.trace
    ensures Kept(ch.Configs(), old(a.state), a.state) && a.state.tables == old(a.state).tables
    ensures rules != [] && a.fails(old(a.calls)) ==> !ok && a.state == old(a.state)
    ensures Starts(ch) && Adding(ch, old(a.state), []) ==>
              && SafeSince(ch, a.trace, |old(a.trace)|) && Guarded(ch, a.state)
              && (ok ==> Adding(ch, a.state, rules))
  {
    hide Starts, Safe, Adding, Added, Guarded, Kept, WellCompiled, Scope;
    ghost var adding := Starts(ch) && Adding(ch, a.state, []);
    KeptSelf(ch.Configs(), a.state);
    for i := 0 to |rules|
      invariant old(a.calls) <= a.calls && (i == 0 ==> a.calls == old(a.calls) && a.state == old(a.state))
      invariant i > 0 ==> !a.fails(old(a.calls))
      invariant a.Valid() && old(a.trace) <= a.trace
      invariant Kept(ch.Configs(), old(a.state), a.state) && a.state.tables == old(a.state).tables
      invariant adding ==> Adding(ch, a.state, rules[..i]) && SafeSince(ch, a.trace, |old(a.trace)|)
    {
      assert rules[i] in rules;
      assert rules[..i + 1] == rules[..i] + [rules[i]];
      CompiledInBlocks(ch.Configs(), ch.next, rules[i]);
      AddedKept(ch.Configs(), old(a.state), a.state, rules[i]);
      AddedMembers(a.state, rules[i]);
      if adding {
        WantedRule(ch, rules[i]);
        AddOne(ch, a.state, rules[..i], rules[i]);
      }
      var added := a.AddRule(rules[i]);
      if !added {
        if adding {
          AddingIsSafe(ch, a.state, rules[..i]);
          AddingGuarded(ch, a.state, rules[..i]);
        }
        return false;
      }
      if adding {
        AddingIsSafe(ch, a.state, rules[..i + 1]);
      }
    }
    assert rules[..|rules|] == rules;
    if adding {
      AddingGuarded(ch, a.state, rules);
    }
    return true;
  }

  /******* Stage 7: guards out *******/

  lemma StartFinishingFor(ch: Change, f: Family, rs: seq<Rule>, done: seq<Rule>)
    requires ShapedFor(ch, f, rs) && AddingFor(ch, f, rs, done) && FirstOnes(ch, f, rs)
    requires forall r :: r in done && r.family == f <==> r in ch.NextRules(f)
    ensures FinishingFor(ch, f, rs)
  {
  }

  lemma StartFinishing(ch: Change, k: KernelState)
    requires Starts(ch) && Adding(ch, k, ch.next.rules) && SameTables(k.tables, NewTables(ch))
    ensures Finishing(ch, k)
  {
    forall f: Family, r ensures r in ch.next.rules && r.family == f <==> r in ch.NextRules(f) {
      WantedRule(ch, r);
      if r in ch.NextRules(f) {
        RuleOwned(ch, f, r);
      }
    }
    hide Starts, NewTables, ShapedFor, AddingFor, FinishingFor;
    assert FirstOnes(ch, V4, k.Rules(V4)) && FirstOnes(ch, V6, k.Rules(V6));
    StartFinishingFor(ch, V4, k.v4, ch.next.rules);
    StartFinishingFor(ch, V6, k.v6, ch.next.rules);
  }

  lemma FinishingIsSafe(ch: Change, k: KernelState)
    requires Starts(ch) && Finishing(ch, k)
    ensures Safe(ch, k)
  {
    hide Starts, Finishing, Safe, Removing;
    FinishingIsRemoving(ch, k);
    RemovingIsSafe(ch, k);
  }

  lemma AllRemoved(ch: Change, k: KernelState, guards: seq<Rule>)
    requires Starts(ch) && Finishing(ch, k) && GuardsListed(ch, guards)
    requires forall g | g in guards && g in k.Rules(g.family) :: g in ch.NextRules(g.family)
    ensures k.v4 == NewRules(ch, V4) && k.v6 == NewRules(ch, V6) && SameTables(k.tables, NewTables(ch))
  {
    GuardFamilies(ch);
    hide Starts, FinishingFor, NewTables, NewRules;
    forall f: Family, g | g in ch.Guards(f) && g in k.Rules(f) ensures g in ch.NextRules(f) {
      assert g in guards;
    }
    Finished(ch, k);
  }

  /** Everything wanted is there behind the guards. */
  ghost predicate Finishable(ch: Change, k: KernelState, wanted: seq<Rule>, guards: seq<Rule>) {
    && Starts(ch) && Finishing(ch, k) && wanted == ch.next.rules && GuardsListed(ch, guards)
    && (forall g | g in guards :: g in k.Rules(g.family))
    && (forall i, j | 0 <= i < j < |guards| :: guards[i] != guards[j])
  }

  lemma RemovedKept(cs: seq<Config>, before: KernelState, k: KernelState, g: Rule)
    requires Kept(cs, before, k) && Scope(cs, g.family).Has(g.priority)
    ensures Kept(cs, before, Removed(k, g))
  {
    hide Scope, Outside, RemoveRule, Sorted, NoDup, OwnedTable;
    RemoveFacts(k.Rules(g.family), g);
    OutsideRemove(Scope(cs, g.family), k.Rules(g.family), g);
  }

  ghost predicate Leaving(ch: Change, k: KernelState, guards: seq<Rule>, n: nat)
    requires n <= |guards|
  {
    && Finishing(ch, k)
    && (forall j | n <= j < |guards| :: guards[j] in k.Rules(guards[j].family))
    && (forall j | 0 <= j < n && guards[j] in k.Rules(guards[j].family) :: guards[j] in ch.NextRules(guards[j].family))
  }

  lemma LeavingKept(ch: Change, k: KernelState, guards: seq<Rule>, n: nat)
    requires n < |guards| && Leaving(ch, k, guards, n) && guards[n] in ch.NextRules(guards[n].family)
    ensures Leaving(ch, k, guards, n + 1)
  {
    hide Finishing, CompileRules;
  }

  lemma LeavingGone(ch: Change, k: KernelState, l: KernelState, guards: seq<Rule>, n: nat)
    requires n < |guards| && Leaving(ch, k, guards, n) && Finishing(ch, l)
    requires forall f: Family, x :: x in l.Rules(f) <==> x in k.Rules(f) && (f != guards[n].family || x != guards[n])
    requires forall i, j | 0 <= i < j < |guards| :: guards[i] != guards[j]
    ensures Leaving(ch, l, guards, n + 1)
  {
    hide Finishing, CompileRules;
  }

  lemma LeavingStep(ch: Change, k: KernelState, wanted: seq<Rule>, guards: seq<Rule>, n: nat)
    requires Starts(ch) && wanted == ch.next.rules && GuardsListed(ch, guards)
    requires forall i, j | 0 <= i < j < |guards| :: guards[i] != guards[j]
    requires n < |guards| && Leaving(ch, k, guards, n)
    ensures if guards[n] in wanted then Leaving(ch, k, guards, n + 1)
            else Leaving(ch, Removed(k, guards[n]), guards, n + 1)
  {
    hide Starts, Finishing, Leaving, Removed, GuardsListed, GuardSet, CompileRules;
    var g := guards[n];
    ListedGuard(ch, guards, g);
    WantedRule(ch, g);
    LeavingFinishing(ch, k, guards, n);
    if g in wanted {
      LeavingKept(ch, k, guards, n);
    } else {
      StillThere(ch, k, guards, n);
      FinishStep(ch, k, g);
      LeavingGone(ch, k, Removed(k, g), guards, n);
    }
  }

  lemma StillThere(ch: Change, k: KernelState, guards: seq<Rule>, n: nat)
    requires n < |guards| && Leaving(ch, k, guards, n)
    ensures guards[n] in k.Rules(guards[n].family)
  {
  }

  lemma LeavingDone(ch: Change, k: KernelState, guards: seq<Rule>)
    requires Starts(ch) && GuardsListed(ch, guards) && Leaving(ch, k, guards, |guards|)
    ensures k.v4 == NewRules(ch, V4) && k.v6 == NewRules(ch, V6) && SameTables(k.tables, NewTables(ch))
  {
    hide Starts, Finishing, NewRules, NewTables, GuardsListed;
    AllRemoved(ch, k, guards);
  }

  /** From any kernel only rules that the guards' requests match go away; from a finished
      change every state is safe and the last one is exactly the new state. */
  method RemoveGuards(a: Adapter, ghost ch: Change, wanted: seq<Rule>, guards: seq<Rule>) returns (ok: bool)
    requires a.Valid() && Blockers(ch.Configs(), guards)
    modifies a
    ensures old(a.calls) <= a.calls && (a.NoFailure(old(a.calls), a.calls) ==> ok)
    ensures a.Valid() && old(a.trace) <= a.trace
    ensures Kept(ch.Configs(), old(a.state), a.state) && a.state.tables == old(a.state).tables
    ensures forall f: Family, x | x in a.state.Rules(f) :: x in old(a.state).Rules(f)
    ensures ok && (forall g | g in guards :: g !in wanted) ==> a.state == RemovedAll(old(a.state), guards)
    ensures old(Finishable(ch, a.state, wanted, guards)) ==>
              && Finishing(ch, a.state) && SafeSince(ch, a.trace, |old(a.trace)|)
              && (ok ==> a.state.v4 == NewRules(ch, V4) && a.state.v6 == NewRules(ch, V6))
              && (ok ==> SameTables(a.state.tables, NewTables(ch)))
  {
    hide Starts, Safe, Finishing, Removed, NewRules, NewTables, GuardsListed, Kept, Leaving, Scope;
    ghost var finishable := Finishable(ch, a.state, wanted, guards);
    if finishable {
      LeavingStart(ch, a.state, guards);
    }
    KeptSelf(ch.Configs(), a.state);
    for i := 0 to |guards|
      invariant old(a.calls) <= a.calls
      invariant a.Valid() && old(a.trace) <= a.trace
      invariant Kept(ch.Configs(), old(a.state), a.state) && a.state.tables == old(a.state).tables
      invariant forall f: Family, x | x in a.state.Rules(f) :: x in old(a.state).Rules(f)
      invariant (forall g | g in guards :: g !in wanted) ==> a.state == RemovedAll(old(a.state), guards[..i])
      invariant finishable ==> Leaving(ch, a.state, guards, i) && SafeSince(ch, a.trace, |old(a.trace)|)
    {
      var g := guards[i];
      assert g in guards && guards[..i + 1][..i] == guards[..i];
      RemovedTables(a.state, g);
      RemovedKept(ch.Configs(), old(a.state), a.state, g);
      if finishable {
        LeavingFinishing(ch, a.state, guards, i);
        LeavingStep(ch, a.state, wanted, guards, i);
      }
      if g in wanted {
        continue;
      }
      var deleted := a.DeleteRule(g);
      if finishable {
        if deleted {
          LeavingFinishing(ch, a.state, guards, i + 1);
        }
        FinishingIsSafe(ch, a.state);
      }
      if !deleted {
        return false;
      }
    }
    assert guards[..|guards|] == guards;
    if finishable {
      LeavingFinishing(ch, a.state, guards, |guards|);
      LeavingDone(ch, a.state, guards);
    }
    return true;
  }

  lemma LeavingStart(ch: Change, k: KernelState, guards: seq<Rule>)
    requires Finishing(ch, k) && forall g | g in guards :: g in k.Rules(g.family)
    ensures Leaving(ch, k, guards, 0)
  {
    hide Finishing;
  }

  lemma LeavingFinishing(ch: Change, k: KernelState, guards: seq<Rule>, n: nat)
    requires n <= |guards| && Leaving(ch, k, guards, n)
    ensures Finishing(ch, k)
  {
  }

  /******* Wherever a reconciliation stops *******/

  lemma ReadyShaped(ch: Change, k: KernelState)
    requires Ready(ch, k)
    ensures Shaped(ch, k)
  {
    hide ShapedFor;
  }

  lemma GuardedShaped(ch: Change, k: KernelState)
    requires Guarded(ch, k)
    ensures Shaped(ch, k)
  {
  }

  lemma FinishingShapedFor(ch: Change, f: Family, rs: seq<Rule>)
    requires Starts(ch) && FinishingFor(ch, f, rs)
    ensures ShapedFor(ch, f, rs)
  {
    StartsBoth(ch, f);
    SplitMembers(ch.Owned(f), rs);
    SplitMembers(ch.Owned(f), ch.before.Rules(f));
    forall r | r in rs ensures r.family == f {
      if !ch.Owned(f).Has(r.priority) {
        assert r in Outside(ch.Owned(f), ch.before.Rules(f));
      } else if r in ch.NextRules(f) {
        RuleOwned(ch, f, r);
      } else {
        GuardFacts(ch, f, r);
      }
    }
    FinishingSlots(ch, f, rs);
  }

  /** An old rule that is still on a guard's slot is that guard, and alone there. */
  lemma FinishingSlots(ch: Change, f: Family, rs: seq<Rule>)
    requires Starts(ch) && FinishingFor(ch, f, rs)
    ensures OldSlotsFirst(ch, f, rs)
  {
    hide Starts, CompileRules, FirstAt, Scope, Known;
    forall r, g | r in ch.PrevRules(f) && r in rs && g in ch.Guards(f) && r.priority == g.priority
      ensures FirstAt(rs, r)
    {
      GuardSlotObsolete(ch, f, r, g);
      RuleOwned(ch, f, r);
      GuardsByPriority(ch, f, r, g);
      forall x | x in rs && x.priority == r.priority ensures x == r {
        FinishingKnown(ch, f, rs, x);
        SlotKinds(ch, f, r, g, x);
      }
      OnlyAtIsFirst(rs, r);
    }
  }

  lemma FinishingKnown(ch: Change, f: Family, rs: seq<Rule>, x: Rule)
    requires FinishingFor(ch, f, rs) && x in rs && ch.Owned(f).Has(x.priority)
    ensures Known(ch, f, x)
  {
  }

  lemma FinishingShaped(ch: Change, k: KernelState)
    requires Starts(ch) && Finishing(ch, k)
    ensures Shaped(ch, k)
  {
    hide Starts, FinishingFor, ShapedFor, NewTables;
    FinishingShapedFor(ch, V4, k.v4);
    FinishingShapedFor(ch, V6, k.v6);
    NewTablesForeign(ch);
  }
}
