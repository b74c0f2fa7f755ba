/** What may be observed while the manager moves the kernel to a complete policy, one
    call at a time. `Safe` is the fail-closed promise: every packet is unreachable, or
    decided as when the move began, or as by the complete new state. */
module Transition {
  import opened Netip
  import opened Policy
  import opened Kernel

  /** The kernel before the call, what the manager had applied, what it now wants. */
  datatype Change = Change(before: KernelState, prev: Option<DesiredState>, next: DesiredState) {
    function Configs(): seq<Config> {
      [next.config] + if prev.Some? then [prev.value.config] else []
    }

    function PrevRules(f: Family): seq<Rule> {
      if prev.Some? && prev.value.config.families.Has(f) then CompileRules(prev.value.config, f) else []
    }

    function NextRules(f: Family): seq<Rule> {
      if next.config.families.Has(f) then CompileRules(next.config, f) else []
    }

    ghost function Guards(f: Family): set<Rule> {
      GuardSet(Configs(), f)
    }

    function Owned(f: Family): Selection {
      Scope(Configs(), f)
    }
  }

  function Blocks(cs: seq<Config>, f: Family): seq<Block> {
    if cs == [] then []
    else (if cs[0].families.Has(f) then [Block(cs[0].base, cs[0].span)] else []) + Blocks(cs[1..], f)
  }

  function Scope(cs: seq<Config>, f: Family): Selection {
    Selection(Blocks(cs, f), {})
  }

  ghost function GuardSet(cs: seq<Config>, f: Family): set<Rule> {
    set c | c in cs && c.families.Has(f) :: TransitionGuard(c, f)
  }

  predicate OwnedTable(cs: seq<Config>, id: TableId) {
    exists c | c in cs :: c.families.Has(id.family) && (id.table == c.vpnTable || id.table == c.safeTable)
  }

  /** What the manager needs to know of a compiled state. */
  ghost predicate WellCompiled(d: DesiredState) {
    && Valid(d.config)
    && (forall r :: r in d.rules <==> d.config.families.Has(r.family) && r in CompileRules(d.config, r.family))
    && (forall r | r in d.vpnRoutes :: d.config.families.Has(r.family) && r.table == d.config.vpnTable)
    && (forall r | r in d.safeRoutes :: d.config.families.Has(r.family) && r.table == d.config.safeTable)
  }

  /** A rule that a policy with this base may have: in front of the guard's slot a lookup of
      the main table, then an unreachable rule; nothing on the slot itself. */
  predicate Harmless(base: int, r: Rule) {
    && r.priority != base + OFFSET_TRANSITION_GUARD
    && (r.priority == base ==> r.action.Lookup? && r.table == RT_TABLE_MAIN)
    && (r.priority == base + OFFSET_APP_UNREACHABLE ==> r.action.Unreachable?)
  }

  /** What a third policy left behind, if all of them have the same base. */
  ghost predicate Stray(ch: Change, f: Family, r: Rule) {
    forall c, d | c in ch.Configs() && d in ch.Configs() && c.families.Has(f) && d.families.Has(f) ::
      c.base == d.base && Harmless(c.base, r)
  }

  ghost predicate Known(ch: Change, f: Family, r: Rule) {
    r in ch.PrevRules(f) || r in ch.NextRules(f) || r in ch.Guards(f) || Stray(ch, f, r)
  }

  /** An old rule on a guard's slot comes before everything else there. */
  ghost predicate OldSlotsFirst(ch: Change, f: Family, rs: seq<Rule>) {
    forall r, g | r in ch.PrevRules(f) && r in rs && g in ch.Guards(f) && r.priority == g.priority :: FirstAt(rs, r)
  }

  /** One family's list before the call: inside the manager's blocks only what a policy can
      have put there, complete or not; rules outside the blocks do not use its tables. */
  ghost predicate StartsFor(ch: Change, f: Family) {
    var rs := ch.before.Rules(f);
    && Sorted(rs) && NoDup(rs)
    && (forall r | r in rs :: r.family == f)
    && (forall r | r in rs && ch.Owned(f).Has(r.priority) :: Known(ch, f, r))
    && OldSlotsFirst(ch, f, rs)
    && (forall r | r in rs && !ch.Owned(f).Has(r.priority) && r.action.Lookup? ::
          !OwnedTable(ch.Configs(), TableId(f, r.table)))
  }

  ghost predicate Starts(ch: Change) {
    && WellCompiled(ch.next) && (ch.prev.Some? ==> WellCompiled(ch.prev.value))
    && StartsFor(ch, V4) && StartsFor(ch, V6)
  }

  /******* The complete new state *******/

  function AddAll(rs: seq<Rule>, added: seq<Rule>): seq<Rule> {
    if added == [] then rs else InsertRule(AddAll(rs, added[..|added| - 1]), added[|added| - 1])
  }

  function NewRules(ch: Change, f: Family): seq<Rule> {
    AddAll(Outside(ch.Owned(f), ch.before.Rules(f)), ch.NextRules(f))
  }

  function Flushed(cs: seq<Config>, ts: Tables): Tables {
    map id | id in ts && !OwnedTable(cs, id) :: ts[id]
  }

  function NewTables(ch: Change): Tables {
    InstallAll(InstallAll(Flushed(ch.Configs(), ch.before.tables), ch.next.vpnRoutes), ch.next.safeRoutes)
  }

  function NewKernel(ch: Change): KernelState {
    KernelState(NewRules(ch, V4), NewRules(ch, V6), NewTables(ch))
  }

  ghost predicate Safe(ch: Change, k: KernelState) {
    forall p: Packet ::
      || k.Route(p) == Blocked
      || k.Route(p) == ch.before.Route(p)
      || k.Route(p) == NewKernel(ch).Route(p)
  }

  /******* Blocks and guards *******/

  lemma {:induction false} BlockMembers(cs: seq<Config>, f: Family, b: Block)
    ensures b in Blocks(cs, f) <==> exists c :: c in cs && c.families.Has(f) && b == Block(c.base, c.span)
  {
    if cs != [] {
      BlockMembers(cs[1..], f, b);
      assert cs == [cs[0]] + cs[1..];
    }
  }

  lemma ScopeHas(cs: seq<Config>, f: Family, p: int)
    ensures Scope(cs, f).Has(p) <==> exists c :: c in cs && c.families.Has(f) && c.base <= p < c.base + c.span
  {
    if Scope(cs, f).Has(p) {
      var b :| b in Blocks(cs, f) && b.base <= p < b.base + b.span;
      BlockMembers(cs, f, b);
    }
    forall c | c in cs && c.families.Has(f) && c.base <= p < c.base + c.span ensures Scope(cs, f).Has(p) {
      BlockMembers(cs, f, Block(c.base, c.span));
      assert Block(c.base, c.span) in Blocks(cs, f);
    }
  }

  lemma ConfigsValid(ch: Change)
    requires Starts(ch)
    ensures forall c | c in ch.Configs() :: Valid(c)
    ensures ch.next.config in ch.Configs()
    ensures ch.prev.Some? ==> ch.prev.value.config in ch.Configs()
  {
    if ch.prev.Some? {
      assert ch.Configs() == [ch.next.config, ch.prev.value.config];
    }
  }

  lemma GuardFacts(ch: Change, f: Family, g: Rule)
    requires Starts(ch) && g in ch.Guards(f)
    ensures CatchAll(g) && g.family == f && ch.Owned(f).Has(g.priority)
  {
    ConfigsValid(ch);
    ScopeHas(ch.Configs(), f, g.priority);
  }

  lemma RuleOwned(ch: Change, f: Family, r: Rule)
    requires Starts(ch) && (r in ch.PrevRules(f) || r in ch.NextRules(f))
    ensures r.family == f && ch.Owned(f).Has(r.priority)
  {
    hide Starts, CompileRules, SourceRoutesOk, MarksOverlap, Scope;
    ConfigsValid(ch);
    ScopeHas(ch.Configs(), f, r.priority);
    CompiledRuleShape(ch.next.config, f);
    if ch.prev.Some? {
      CompiledRuleShape(ch.prev.value.config, f);
    }
  }

  /** No compiled rule of either configuration that shares a guard's slot is wanted. */
  lemma GuardSlotObsolete(ch: Change, f: Family, r: Rule, g: Rule)
    requires Starts(ch) && r in ch.PrevRules(f) && g in ch.Guards(f) && r.priority == g.priority
    ensures r !in ch.NextRules(f)
  {
    hide Starts, CompileRules, Valid;
    CompiledRuleShape(ch.prev.value.config, f);
    CompiledRuleShape(ch.next.config, f);
    ConfigsValid(ch);
  }

  lemma {:induction false} SeqUnique(rs: seq<Rule>, x: Rule, y: Rule)
    requires StrictlySorted(rs) && x in rs && y in rs && x.priority == y.priority
    ensures x == y
  {
  }

  lemma CompiledStrict(c: Config, f: Family)
    ensures StrictlySorted(CompileRules(c, f))
  {
    CompiledRuleShape(c, f);
  }

  /******* Shape of the lists on the way *******/

  /** Foreign rules untouched, and inside the blocks only what was there, guards and new rules. */
  ghost predicate ShapedFor(ch: Change, f: Family, rs: seq<Rule>) {
    && Sorted(rs) && NoDup(rs)
    && (forall r | r in rs :: r.family == f)
    && Outside(ch.Owned(f), rs) == Outside(ch.Owned(f), ch.before.Rules(f))
    && (forall r | r in rs && ch.Owned(f).Has(r.priority) ::
          r in ch.before.Rules(f) || r in ch.Guards(f) || r in ch.NextRules(f))
    && OldSlotsFirst(ch, f, rs)
  }

  /** Every rule of a shaped list inside the blocks is one that a policy can have put there. */
  lemma ShapedKnown(ch: Change, f: Family, rs: seq<Rule>, r: Rule)
    requires StartsFor(ch, f) && ShapedFor(ch, f, rs) && r in rs && ch.Owned(f).Has(r.priority)
    ensures Known(ch, f, r)
  {
  }

  ghost predicate ForeignTablesKept(ch: Change, ts: Tables) {
    forall id: TableId | !OwnedTable(ch.Configs(), id) :: TableOf(ts, id) == TableOf(ch.before.tables, id)
  }

  ghost predicate Shaped(ch: Change, k: KernelState) {
    ShapedFor(ch, V4, k.v4) && ShapedFor(ch, V6, k.v6) && ForeignTablesKept(ch, k.tables)
  }

  ghost predicate GuardsIn(ch: Change, k: KernelState) {
    (forall g | g in ch.Guards(V4) :: g in k.v4) && (forall g | g in ch.Guards(V6) :: g in k.v6)
  }

  /** The state between installing the last guard and removing the first one. */
  ghost predicate Guarded(ch: Change, k: KernelState) {
    Shaped(ch, k) && GuardsIn(ch, k)
  }

  /******* Guarded states are safe *******/

  function Below(rs: seq<Rule>, lo: int): seq<Rule> {
    if rs == [] then [] else (if rs[0].priority < lo then [rs[0]] else []) + Below(rs[1..], lo)
  }

  function Above(rs: seq<Rule>, lo: int): seq<Rule> {
    if rs == [] then [] else (if rs[0].priority < lo then [] else [rs[0]]) + Above(rs[1..], lo)
  }

  lemma {:induction false} AboveMembers(rs: seq<Rule>, lo: int)
    ensures forall x :: x in Above(rs, lo) <==> x in rs && lo <= x.priority
    ensures forall x :: x in Below(rs, lo) <==> x in rs && x.priority < lo
  {
    if rs != [] {
      AboveMembers(rs[1..], lo);
      assert rs == [rs[0]] + rs[1..];
    }
  }

  lemma {:induction false} AllAbove(rs: seq<Rule>, lo: int)
    requires forall x | x in rs :: lo <= x.priority
    ensures Above(rs, lo) == rs && Below(rs, lo) == []
  {
    if rs != [] {
      assert rs[0] in rs;
      AllAbove(rs[1..], lo);
      assert rs == [rs[0]] + rs[1..];
    }
  }

  lemma {:induction false} AboveFacts(rs: seq<Rule>, lo: int)
    requires Sorted(rs)
    ensures Sorted(Above(rs, lo))
    ensures rs == Below(rs, lo) + Above(rs, lo)
  {
    if rs != [] {
      if rs[0].priority < lo {
        AboveFacts(rs[1..], lo);
        assert rs == [rs[0]] + rs[1..];
      } else {
        AllAbove(rs, lo);
      }
    }
  }

  lemma {:induction false} BelowIsForeign(s: Selection, rs: seq<Rule>, lo: int)
    requires forall q | q < lo :: !s.Has(q)
    ensures Below(rs, lo) == Below(Outside(s, rs), lo)
  {
    if rs != [] {
      BelowIsForeign(s, rs[1..], lo);
      if s.Has(rs[0].priority) {
        assert lo <= rs[0].priority;
        assert Outside(s, rs) == Outside(s, rs[1..]);
      } else {
        assert Outside(s, rs) == [rs[0]] + Outside(s, rs[1..]);
        assert Outside(s, rs)[1..] == Outside(s, rs[1..]);
      }
    }
  }

  lemma EvalSplit(rs: seq<Rule>, lo: int, ts: Tables, p: Packet)
    requires Sorted(rs)
    ensures Eval(rs, ts, p) ==
            if Eval(Below(rs, lo), ts, p).NoRoute? then Eval(Above(rs, lo), ts, p) else Eval(Below(rs, lo), ts, p)
  {
    AboveFacts(rs, lo);
    EvalConcat(Below(rs, lo), Above(rs, lo), ts, p);
  }

  /** Behind a guard only a lookup rule at or before its priority can still decide. */
  lemma {:induction false} BlockedOrEarlier(rs: seq<Rule>, g: Rule, ts: Tables, p: Packet)
    requires Sorted(rs) && g in rs && CatchAll(g)
    ensures || Eval(rs, ts, p) == Blocked
            || exists x :: && x in rs && x.priority <= g.priority && x.action.Lookup?
                           && Decide(x, ts, p) != NoRoute && Eval(rs, ts, p) == Decide(x, ts, p)
  {
    CatchAllBlocks(g, ts, p);
    var x := rs[0];
    assert x in rs && x.priority <= g.priority;
    if x != g && Decide(x, ts, p) == NoRoute {
      assert rs == [x] + rs[1..];
      BlockedOrEarlier(rs[1..], g, ts, p);
    }
  }

  lemma HeadDecides(rs: seq<Rule>, x: Rule, ts: Tables, p: Packet)
    requires Sorted(rs) && x in rs && Decide(x, ts, p) != NoRoute
    requires forall y | y in rs && y.priority <= x.priority :: y == x
    ensures Eval(rs, ts, p) == Decide(x, ts, p)
  {
    assert rs[0] in rs;
  }

  /** `y` can come before `x` in the list. */
  predicate MayPrecede(rs: seq<Rule>, y: Rule, x: Rule) {
    y.priority < x.priority || (y.priority == x.priority && y != x && !FirstAt(rs, x))
  }

  /** A rule decides if whatever can come before it leaves the packet alone or decides alike. */
  lemma {:induction false} ReachedDecides(rs: seq<Rule>, x: Rule, ts: Tables, p: Packet)
    requires Sorted(rs) && x in rs && Decide(x, ts, p) != NoRoute
    requires forall y | y in rs && MayPrecede(rs, y, x) ::
               Decide(y, ts, p) == NoRoute || Decide(y, ts, p) == Decide(x, ts, p)
    ensures Eval(rs, ts, p) == Decide(x, ts, p)
  {
    hide Decide;
    assert rs[0] in rs && rs == [rs[0]] + rs[1..];
    if rs[0] != x {
      assert rs[0].priority <= x.priority;
      assert MayPrecede(rs, rs[0], x);
      if Decide(rs[0], ts, p) == NoRoute {
        forall y | y in rs[1..] && MayPrecede(rs[1..], y, x)
          ensures Decide(y, ts, p) == NoRoute || Decide(y, ts, p) == Decide(x, ts, p)
        {
          assert y in rs;
        }
        ReachedDecides(rs[1..], x, ts, p);
      }
    }
  }

  lemma {:induction false} FirstAtAbove(rs: seq<Rule>, lo: int, x: Rule)
    requires FirstAt(rs, x) && lo <= x.priority
    ensures FirstAt(Above(rs, lo), x)
  {
    if rs[0] != x {
      FirstAtAbove(rs[1..], lo, x);
      var rest := Above(rs[1..], lo);
      if rs[0].priority < lo {
        assert Above(rs, lo) == rest;
      } else {
        assert Above(rs, lo) == [rs[0]] + rest && Above(rs, lo)[1..] == rest;
      }
    } else {
      assert Above(rs, lo)[0] == x;
    }
  }

  /** The lowest block of the family: nothing of the manager's lies below it. */
  lemma LowestConfig(ch: Change, f: Family) returns (c: Config)
    requires Starts(ch) && exists d :: d in ch.Configs() && d.families.Has(f)
    ensures c in ch.Configs() && c.families.Has(f)
    ensures forall d | d in ch.Configs() && d.families.Has(f) :: c.base <= d.base
    ensures forall q | q < c.base :: !ch.Owned(f).Has(q)
    ensures forall q | c.base <= q < c.base + c.span :: ch.Owned(f).Has(q)
  {
    hide Starts, Blocks;
    assert ch.Configs() == if ch.prev.Some? then [ch.next.config, ch.prev.value.config] else [ch.next.config];
    c := ch.next.config;
    if ch.prev.Some? && ch.prev.value.config.families.Has(f)
       && (!c.families.Has(f) || ch.prev.value.config.base < c.base) {
      c := ch.prev.value.config;
    }
    forall q ensures q < c.base ==> !ch.Owned(f).Has(q) {
      ScopeHas(ch.Configs(), f, q);
    }
    forall q | c.base <= q < c.base + c.span ensures ch.Owned(f).Has(q) {
      ScopeHas(ch.Configs(), f, q);
    }
  }

  lemma {:induction false} OutsideOfNothing(s: Selection, rs: seq<Rule>)
    requires forall r | r in rs :: !s.Has(r.priority)
    ensures Outside(s, rs) == rs
  {
    if rs != [] {
      assert rs[0] in rs;
      OutsideOfNothing(s, rs[1..]);
      assert rs == [rs[0]] + rs[1..];
    }
  }

  lemma MainNotOwned(ch: Change, f: Family)
    requires Starts(ch)
    ensures !OwnedTable(ch.Configs(), TableId(f, RT_TABLE_MAIN))
  {
    ConfigsValid(ch);
  }

  /** A foreign part of a list decides alike under tables that agree outside the manager's. */
  lemma ForeignEval(ch: Change, f: Family, rs: seq<Rule>, ts: Tables, us: Tables, p: Packet)
    requires Starts(ch) && StartsFor(ch, f)
    requires forall r | r in rs :: r in ch.before.Rules(f) && !ch.Owned(f).Has(r.priority)
    requires ForeignTablesKept(ch, ts) && ForeignTablesKept(ch, us)
    ensures Eval(rs, ts, p) == Eval(rs, us, p)
  {
    forall r | r in rs && r.action.Lookup?
      ensures TableOf(ts, TableId(r.family, r.table)) == TableOf(us, TableId(r.family, r.table))
    {
      assert !OwnedTable(ch.Configs(), TableId(f, r.table));
    }
    EvalFrame(rs, ts, us, p);
  }

  /** What stays below the lowest block is the same in every shaped list. */
  lemma SameBelow(ch: Change, f: Family, rs: seq<Rule>, lo: int)
    requires Outside(ch.Owned(f), rs) == Outside(ch.Owned(f), ch.before.Rules(f))
    requires forall q | q < lo :: !ch.Owned(f).Has(q)
    ensures Below(rs, lo) == Below(ch.before.Rules(f), lo)
  {
    BelowIsForeign(ch.Owned(f), rs, lo);
    BelowIsForeign(ch.Owned(f), ch.before.Rules(f), lo);
  }

  /** A packet decided by an application-bypass rule in front of the guard is decided
      the same way by the complete state that rule belongs to. */
  lemma AppRuleDecides(ch: Change, f: Family, rs: seq<Rule>, cs: Config, lo: int, ts: Tables, p: Packet)
    requires Starts(ch) && Sorted(rs) && cs.families.Has(f)
    requires forall q | q < lo :: !ch.Owned(f).Has(q)
    requires forall q | lo <= q < lo + DEFAULT_PRIORITY_SPAN :: ch.Owned(f).Has(q)
    requires AppMain(cs, f) in rs && lo <= cs.base < lo + DEFAULT_PRIORITY_SPAN
    requires forall r | r in rs && ch.Owned(f).Has(r.priority) ::
               r in CompileRules(cs, f) || r == TransitionGuard(cs, f)
    requires Eval(Below(rs, lo), ts, p) == NoRoute && Decide(AppMain(cs, f), ts, p) != NoRoute
    ensures Eval(rs, ts, p) == Decide(AppMain(cs, f), ts, p)
  {
    hide Starts, CompileRules, Below, Above, Eval, Decide;
    AboveFacts(rs, lo);
    AboveMembers(rs, lo);
    EvalSplit(rs, lo, ts, p);
    var x := AppMain(cs, f);
    forall y | y in Above(rs, lo) && y.priority <= x.priority ensures y == x {
      assert ch.Owned(f).Has(y.priority);
      CompiledRuleShape(cs, f);
    }
    HeadDecides(Above(rs, lo), x, ts, p);
  }

  /******* Facts about the complete new state *******/

  lemma {:induction false} AddAllFacts(s: Selection, rs: seq<Rule>, added: seq<Rule>)
    requires Sorted(rs) && forall r | r in added :: s.Has(r.priority)
    ensures Sorted(AddAll(rs, added))
    ensures Outside(s, AddAll(rs, added)) == Outside(s, rs)
    ensures forall x :: x in AddAll(rs, added) <==> x in rs || x in added
  {
    if added != [] {
      var init, last := added[..|added| - 1], added[|added| - 1];
      assert added == init + [last];
      AddAllFacts(s, rs, init);
      InsertFacts(AddAll(rs, init), last);
      OutsideInsert(s, AddAll(rs, init), last);
    }
  }

  lemma {:induction false} OutsideSorted(s: Selection, rs: seq<Rule>)
    requires Sorted(rs)
    ensures Sorted(Outside(s, rs))
  {
    if rs != [] {
      OutsideSorted(s, rs[1..]);
      SplitMembers(s, rs[1..]);
      var rest := Outside(s, rs[1..]);
      forall j | 0 <= j < |rest| ensures rs[0].priority <= rest[j].priority {
        assert rest[j] in rest;
      }
    }
  }

  lemma {:induction false} AddAllNoDup(s: Selection, rs: seq<Rule>, added: seq<Rule>)
    requires NoDup(rs) && NoDup(added) && Sorted(rs)
    requires forall r | r in added :: s.Has(r.priority)
    requires forall r | r in rs :: !s.Has(r.priority)
    ensures NoDup(AddAll(rs, added))
  {
    if added != [] {
      var init, last := added[..|added| - 1], added[|added| - 1];
      assert added == init + [last];
      AddAllNoDup(s, rs, init);
      AddAllFacts(s, rs, init);
      assert last in added && last !in init && last !in rs;
      InsertFacts(AddAll(rs, init), last);
    }
  }

  lemma {:induction false} OutsideNoDup(s: Selection, rs: seq<Rule>)
    requires NoDup(rs)
    ensures NoDup(Outside(s, rs))
  {
    if rs != [] {
      OutsideNoDup(s, rs[1..]);
      SplitMembers(s, rs[1..]);
      var rest := Outside(s, rs[1..]);
      forall j | 0 <= j < |rest| ensures rs[0] != rest[j] {
        assert rest[j] in rest;
      }
    }
  }

  lemma MergeFacts(s: Selection, rs: seq<Rule>, added: seq<Rule>, c: Config, f: Family)
    requires Sorted(rs) && NoDup(rs) && (added == [] || added == CompileRules(c, f))
    requires forall r | r in added :: s.Has(r.priority)
    ensures Sorted(AddAll(Outside(s, rs), added))
    ensures NoDup(AddAll(Outside(s, rs), added))
    ensures Outside(s, AddAll(Outside(s, rs), added)) == Outside(s, rs)
    ensures Inside(s, AddAll(Outside(s, rs), added)) == added
    ensures forall r :: r in AddAll(Outside(s, rs), added) <==> r in added || (r in rs && !s.Has(r.priority))
  {
    var foreign := Outside(s, rs);
    SplitMembers(s, rs);
    OutsideSorted(s, rs);
    OutsideNoDup(s, rs);
    OutsideOfNothing(s, foreign);
    AddAllFacts(s, foreign, added);
    CompiledStrict(c, f);
    AddAllNoDup(s, foreign, added);
    InsideIsExactly(s, AddAll(foreign, added), added, c, f);
  }

  lemma NewRulesFacts(ch: Change, f: Family)
    requires Starts(ch) && StartsFor(ch, f)
    ensures Sorted(NewRules(ch, f)) && NoDup(NewRules(ch, f))
    ensures Outside(ch.Owned(f), NewRules(ch, f)) == Outside(ch.Owned(f), ch.before.Rules(f))
    ensures Inside(ch.Owned(f), NewRules(ch, f)) == ch.NextRules(f)
    ensures forall r :: r in NewRules(ch, f) <==>
              r in ch.NextRules(f) || (r in ch.before.Rules(f) && !ch.Owned(f).Has(r.priority))
  {
    forall r | r in ch.NextRules(f) ensures ch.Owned(f).Has(r.priority) {
      RuleOwned(ch, f, r);
    }
    MergeFacts(ch.Owned(f), ch.before.Rules(f), ch.NextRules(f), ch.next.config, f);
  }

  /** A sorted list whose selected rules are those of a one-rule-per-priority list
      without repetition selects exactly that list. */
  lemma InsideIsExactly(s: Selection, rs: seq<Rule>, want: seq<Rule>, c: Config, f: Family)
    requires Sorted(rs) && (want == [] || want == CompileRules(c, f))
    requires forall r :: r in rs && s.Has(r.priority) <==> r in want
    ensures NoDup(rs) ==> Inside(s, rs) == want
  {
    InsideSorted(s, rs);
    SplitMembers(s, rs);
    CompiledStrict(c, f);
    if NoDup(rs) {
      InsideNoDup(s, rs);
      var inside := Inside(s, rs);
      forall i, j | 0 <= i < j < |inside| ensures inside[i].priority < inside[j].priority {
        assert inside[i] in inside && inside[j] in inside;
        if inside[i].priority == inside[j].priority {
          SeqUnique(want, inside[i], inside[j]);
        }
      }
      StrictDetermine(inside, want);
    }
  }

  lemma {:induction false} InsideNoDup(s: Selection, rs: seq<Rule>)
    requires NoDup(rs)
    ensures NoDup(Inside(s, rs))
  {
    if rs != [] {
      InsideNoDup(s, rs[1..]);
      SplitMembers(s, rs[1..]);
      var rest := Inside(s, rs[1..]);
      forall j | 0 <= j < |rest| ensures rs[0] != rest[j] {
        assert rest[j] in rest;
      }
    }
  }
}
