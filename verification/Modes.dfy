/** What a complete compiled policy does with a packet: the four modes, the VPN
    table and the safe table. */
module Modes {
  import opened Netip
  import opened Policy
  import opened Kernel
  import opened Transition
  import opened Reconciler
  import opened RoutingManager
  import opened Contents

  /******* Rules *******/

  function Else(a: Outcome, b: Outcome): Outcome {
    if a.NoRoute? then b else a
  }

  ghost function Find(ts: Tables, f: Family, table: int, p: Packet): Outcome {
    var found := LookupRoute(TableOf(ts, TableId(f, table)), p.dst);
    if found.Some? then Via(table, found.value) else NoRoute
  }

  predicate AppMarked(c: Config, p: Packet) {
    MarkMatches(c.appMark, c.appMask, p.mark)
  }

  predicate UserMarked(c: Config, p: Packet) {
    MarkMatches(c.userMark, c.userMask, p.mark)
  }

  /** What each mode promises, given the three table lookups. `NoRoute` leaves the
      packet to the rules behind the block. */
  function PromiseOf(c: Config, carried: bool, app: bool, user: bool, main: Outcome, vpn: Outcome,
                     safe: Outcome): Outcome {
    if app then Else(main, Blocked)
    else if !carried then Blocked
    else if c.mode.Exclude? then
      if c.strictness.Strict? then
        if user then Blocked else Else(vpn, Blocked)
      else
        if user then Else(main, Blocked) else Else(safe, Else(vpn, Blocked))
    else
      if c.strictness.Strict? then
        if user then Else(vpn, Blocked) else Blocked
      else
        Else(safe, if user then Else(vpn, Blocked) else main)
  }

  ghost function Promise(c: Config, f: Family, ts: Tables, p: Packet): Outcome {
    PromiseOf(c, TunnelFamilies(c).Has(f), AppMarked(c, p), UserMarked(c, p),
              Find(ts, f, RT_TABLE_MAIN, p), Find(ts, f, c.vpnTable, p), Find(ts, f, c.safeTable, p))
  }

  lemma EvalCons(r: Rule, rs: seq<Rule>, ts: Tables, p: Packet)
    ensures Eval([r] + rs, ts, p) == Else(Decide(r, ts, p), Eval(rs, ts, p))
  {
    assert ([r] + rs)[1..] == rs;
  }

  lemma DecideKinds(f: Family, prio: int, table: int, mark: bv32, mask: bv32, ts: Tables, p: Packet)
    ensures Decide(Rule(f, prio, Lookup, table, mark, mask), ts, p)
            == if MarkMatches(mark, mask, p.mark) then Find(ts, f, table, p) else NoRoute
    ensures Decide(Rule(f, prio, Unreachable, table, mark, mask), ts, p)
            == if MarkMatches(mark, mask, p.mark) then Blocked else NoRoute
  {
  }

  lemma AllMatch(m: bv32)
    ensures MarkMatches(0, 0, m)
  {
  }

  lemma UnmarkedDecide(f: Family, prio: int, table: int, ts: Tables, p: Packet)
    ensures Decide(Rule(f, prio, Lookup, table, 0, 0), ts, p) == Find(ts, f, table, p)
    ensures Decide(Rule(f, prio, Unreachable, table, 0, 0), ts, p) == Blocked
  {
    AllMatch(p.mark);
  }

  lemma NumberedCons(r: Rule, rs: seq<Rule>, n: int)
    ensures Numbered([r] + rs, n) == [r.(priority := n)] + Numbered(rs, n + 1)
  {
  }

  lemma EvalNumbered(r: Rule, rs: seq<Rule>, n: int, ts: Tables, p: Packet)
    ensures Eval(Numbered([r] + rs, n), ts, p)
            == Else(Decide(r, ts, p), Eval(Numbered(rs, n + 1), ts, p))
  {
    NumberedCons(r, rs, n);
    EvalCons(r.(priority := n), Numbered(rs, n + 1), ts, p);
  }

  lemma EvalOne(r: Rule, n: int, ts: Tables, p: Packet)
    ensures Eval(Numbered([r], n), ts, p) == Decide(r, ts, p)
  {
    EvalNumbered(r, [], n, ts, p);
    assert [r] + [] == [r];
  }

  lemma EvalTwo(r: Rule, s: Rule, n: int, ts: Tables, p: Packet)
    ensures Eval(Numbered([r, s], n), ts, p) == Else(Decide(r, ts, p), Decide(s, ts, p))
  {
    EvalNumbered(r, [s], n, ts, p);
    EvalOne(s, n + 1, ts, p);
    assert [r] + [s] == [r, s];
  }

  lemma EvalThree(r: Rule, s: Rule, t: Rule, n: int, ts: Tables, p: Packet)
    ensures Eval(Numbered([r, s, t], n), ts, p) == Else(Decide(r, ts, p), Else(Decide(s, ts, p), Decide(t, ts, p)))
  {
    EvalNumbered(r, [s, t], n, ts, p);
    EvalTwo(s, t, n + 1, ts, p);
    assert [r] + [s, t] == [r, s, t];
  }

  /** The rules behind the application bypass, for a carried family. */
  lemma ExcludeMeaning(c: Config, f: Family, n: int, ts: Tables, p: Packet)
    requires TunnelFamilies(c).Has(f) && c.mode.Exclude? && !c.strictness.OtherStrictness? && !AppMarked(c, p)
    ensures Eval(Numbered(ModeRules(c, f), n), ts, p) == Promise(c, f, ts, p)
  {
    hide Find, MarkMatches;
    var m, k := c.userMark, c.userMask;
    UnmarkedDecide(f, 0, c.vpnTable, ts, p);
    UnmarkedDecide(f, 0, c.safeTable, ts, p);
    UnmarkedDecide(f, 0, 0, ts, p);
    DecideKinds(f, 0, RT_TABLE_MAIN, m, k, ts, p);
    DecideKinds(f, 0, 0, m, k, ts, p);
    hide Decide;
    var blocked, userBlocked := Rule(f, 0, Unreachable, 0, 0, 0), Rule(f, 0, Unreachable, 0, m, k);
    var vpn, safe := Rule(f, 0, Lookup, c.vpnTable, 0, 0), Rule(f, 0, Lookup, c.safeTable, 0, 0);
    var userMain := Rule(f, 0, Lookup, RT_TABLE_MAIN, m, k);
    if c.strictness.Strict? {
      EvalThree(userBlocked, vpn, blocked, n, ts, p);
    } else {
      EvalThree(safe, vpn, blocked, n + 2, ts, p);
      EvalNumbered(userBlocked, [safe, vpn, blocked], n + 1, ts, p);
      EvalNumbered(userMain, [userBlocked, safe, vpn, blocked], n, ts, p);
      assert [userBlocked] + [safe, vpn, blocked] == [userBlocked, safe, vpn, blocked];
      assert [userMain] + [userBlocked, safe, vpn, blocked] == ModeRules(c, f);
    }
  }

  lemma IncludeMeaning(c: Config, f: Family, n: int, ts: Tables, p: Packet)
    requires TunnelFamilies(c).Has(f) && c.mode.Include? && !c.strictness.OtherStrictness? && !AppMarked(c, p)
    ensures Eval(Numbered(ModeRules(c, f), n), ts, p) == Promise(c, f, ts, p)
  {
    hide Find, MarkMatches;
    var m, k := c.userMark, c.userMask;
    UnmarkedDecide(f, 0, c.safeTable, ts, p);
    UnmarkedDecide(f, 0, RT_TABLE_MAIN, ts, p);
    UnmarkedDecide(f, 0, 0, ts, p);
    DecideKinds(f, 0, c.vpnTable, m, k, ts, p);
    DecideKinds(f, 0, 0, m, k, ts, p);
    hide Decide;
    var blocked, userBlocked := Rule(f, 0, Unreachable, 0, 0, 0), Rule(f, 0, Unreachable, 0, m, k);
    var userVpn, safe := Rule(f, 0, Lookup, c.vpnTable, m, k), Rule(f, 0, Lookup, c.safeTable, 0, 0);
    var main := Rule(f, 0, Lookup, RT_TABLE_MAIN, 0, 0);
    if c.strictness.Strict? {
      EvalThree(userVpn, userBlocked, blocked, n, ts, p);
    } else {
      EvalThree(userVpn, userBlocked, main, n + 1, ts, p);
      EvalNumbered(safe, [userVpn, userBlocked, main], n, ts, p);
      assert [safe] + [userVpn, userBlocked, main] == ModeRules(c, f);
    }
  }

  lemma UncarriedMeaning(c: Config, f: Family, n: int, ts: Tables, p: Packet)
    requires !TunnelFamilies(c).Has(f)
    ensures Eval(Numbered(ModeRules(c, f), n), ts, p) == Blocked
  {
    UnmarkedDecide(f, 0, 0, ts, p);
    EvalOne(Rule(f, 0, Unreachable, 0, 0, 0), n, ts, p);
  }

  /** Evaluating the compiled rules gives the mode's promise, for every mark and
      destination and whatever the tables hold. */
  lemma CompiledRulesKeepPromise(c: Config, f: Family, ts: Tables, p: Packet)
    requires Policy.Valid(c)
    ensures Eval(CompileRules(c, f), ts, p) == Promise(c, f, ts, p)
  {
    var n := c.base + OFFSET_USER_FIRST;
    var rest := Numbered(ModeRules(c, f), n);
    assert CompileRules(c, f) == [AppMain(c, f)] + ([AppUnreachable(c, f)] + rest);
    EvalCons(AppMain(c, f), [AppUnreachable(c, f)] + rest, ts, p);
    EvalCons(AppUnreachable(c, f), rest, ts, p);
    DecideKinds(f, c.base, RT_TABLE_MAIN, c.appMark, c.appMask, ts, p);
    DecideKinds(f, c.base + 1, 0, c.appMark, c.appMask, ts, p);
    hide Find, MarkMatches, Decide, Numbered, ModeRules;
    if !AppMarked(c, p) {
      if !TunnelFamilies(c).Has(f) {
        UncarriedMeaning(c, f, n, ts, p);
      } else if c.mode.Exclude? {
        ExcludeMeaning(c, f, n, ts, p);
      } else {
        IncludeMeaning(c, f, n, ts, p);
      }
    }
  }

  /******* In the kernel *******/

  lemma SortedExactly(rs: seq<Rule>, want: seq<Rule>)
    requires Kernel.Sorted(rs) && NoDup(rs) && StrictlySorted(want)
    requires forall r :: r in rs <==> r in want
    ensures rs == want
  {
    forall i, j | 0 <= i < j < |rs| ensures rs[i].priority < rs[j].priority {
      assert rs[i] in rs && rs[j] in rs;
      if rs[i].priority == rs[j].priority {
        SeqUnique(want, rs[i], rs[j]);
      }
    }
    StrictDetermine(rs, want);
  }

  lemma BlockMembers(rs: seq<Rule>, lo: int, hi: int, want: seq<Rule>, r: Rule)
    requires r in want <==> r in rs && lo <= r.priority < hi
    ensures r in Below(Above(rs, lo), hi) <==> r in want
  {
    AboveMembers(rs, lo);
    AboveMembers(Above(rs, lo), hi);
  }

  lemma BlockMiddle(rs: seq<Rule>, lo: int, hi: int, want: seq<Rule>)
    requires Kernel.Sorted(rs) && NoDup(rs) && StrictlySorted(want)
    requires forall r :: r in want <==> r in rs && lo <= r.priority < hi
    ensures Below(Above(rs, lo), hi) == want
  {
    hide Below, Above, Kernel.Sorted, NoDup, StrictlySorted;
    var mid := Below(Above(rs, lo), hi);
    AboveFacts(rs, lo);
    BelowSorted(Above(rs, lo), hi);
    AboveNoDup(rs, lo);
    BelowNoDup(Above(rs, lo), hi);
    forall r ensures r in mid <==> r in want {
      BlockMembers(rs, lo, hi, want, r);
    }
    SortedExactly(mid, want);
  }

  /** The rules of one priority range, cut out of a sorted list. */
  lemma BlockCut(rs: seq<Rule>, lo: int, hi: int, want: seq<Rule>)
    requires Kernel.Sorted(rs) && NoDup(rs) && lo <= hi && StrictlySorted(want)
    requires forall r :: r in want <==> r in rs && lo <= r.priority < hi
    ensures rs == Below(rs, lo) + (want + Above(rs, hi))
  {
    hide Below, Above, Kernel.Sorted, NoDup, StrictlySorted;
    AboveFacts(rs, lo);
    AboveFacts(Above(rs, lo), hi);
    AboveTwice(rs, lo, hi);
    BlockMiddle(rs, lo, hi, want);
  }

  lemma {:induction false} AboveTwice(rs: seq<Rule>, lo: int, hi: int)
    requires lo <= hi
    ensures Above(Above(rs, lo), hi) == Above(rs, hi)
  {
    if rs != [] {
      AboveTwice(rs[1..], lo, hi);
      if lo <= rs[0].priority {
        assert Above(rs, lo) == [rs[0]] + Above(rs[1..], lo);
        assert Above(rs, lo)[1..] == Above(rs[1..], lo);
      } else {
        assert Above(rs, lo) == Above(rs[1..], lo);
      }
    }
  }

  lemma {:induction false} BelowSorted(rs: seq<Rule>, hi: int)
    requires Kernel.Sorted(rs)
    ensures Kernel.Sorted(Below(rs, hi))
  {
    if rs != [] {
      BelowSorted(rs[1..], hi);
      AboveMembers(rs[1..], hi);
      var rest := Below(rs[1..], hi);
      forall j | 0 <= j < |rest| ensures rs[0].priority <= rest[j].priority {
        assert rest[j] in rest;
      }
    }
  }

  lemma {:induction false} AboveNoDup(rs: seq<Rule>, lo: int)
    requires NoDup(rs)
    ensures NoDup(Above(rs, lo))
  {
    if rs != [] {
      AboveNoDup(rs[1..], lo);
      AboveMembers(rs[1..], lo);
      var rest := Above(rs[1..], lo);
      forall j | 0 <= j < |rest| ensures rs[0] != rest[j] {
        assert rest[j] in rest;
      }
    }
  }

  lemma {:induction false} BelowNoDup(rs: seq<Rule>, hi: int)
    requires NoDup(rs)
    ensures NoDup(Below(rs, hi))
  {
    if rs != [] {
      BelowNoDup(rs[1..], hi);
      AboveMembers(rs[1..], hi);
      var rest := Below(rs[1..], hi);
      forall j | 0 <= j < |rest| ensures rs[0] != rest[j] {
        assert rest[j] in rest;
      }
    }
  }

  lemma BlockAfterChange(ch: Change, f: Family, r: Rule)
    requires Starts(ch) && StartsFor(ch, f) && ch.next.config.families.Has(f)
    ensures r in CompileRules(ch.next.config, f)
            <==> r in NewRules(ch, f) && ch.next.config.base <= r.priority < ch.next.config.base + ch.next.config.span
  {
    var c := ch.next.config;
    NewRulesFacts(ch, f);
    CompiledRuleShape(c, f);
    ScopeHas(ch.Configs(), f, r.priority);
    assert c in ch.Configs();
  }

  /** The whole kernel after a successful change: foreign rules in front of the block,
      then the mode's promise, then the foreign rules behind it. */
  lemma AppliedPolicy(ch: Change, k: KernelState, p: Packet)
    requires Starts(ch) && Complete(ch, k) && ch.next.config.families.Has(FamilyOf(p.dst))
    ensures var c, f := ch.next.config, FamilyOf(p.dst);
            var front := Eval(Below(k.Rules(f), c.base), k.tables, p);
            var behind := Eval(Above(k.Rules(f), c.base + c.span), k.tables, p);
            k.Route(p) == Else(front, Else(Promise(c, f, k.tables, p), behind))
  {
    hide Starts, StartsFor, CompileRules, Promise, Policy.Valid, NewRules, NewTables, Eval, Above, Below, FamilyOf;
    var c, f := ch.next.config, FamilyOf(p.dst);
    StartsValid(ch, f);
    assert k.Rules(f) == NewRules(ch, f);
    BlockInKernel(ch, f);
    var front, behind := Below(k.Rules(f), c.base), Above(k.Rules(f), c.base + c.span);
    EvalConcat(front, CompileRules(c, f) + behind, k.tables, p);
    EvalConcat(CompileRules(c, f), behind, k.tables, p);
    CompiledRulesKeepPromise(c, f, k.tables, p);
  }

  lemma StartsValid(ch: Change, f: Family)
    requires Starts(ch)
    ensures StartsFor(ch, f) && Policy.Valid(ch.next.config) && 0 <= ch.next.config.span
  {
    hide StartsFor;
  }

  lemma BlockInKernel(ch: Change, f: Family)
    requires Starts(ch) && StartsFor(ch, f) && ch.next.config.families.Has(f)
    ensures var c, rs := ch.next.config, NewRules(ch, f);
            rs == Below(rs, c.base) + (CompileRules(c, f) + Above(rs, c.base + c.span))
  {
    hide Starts, StartsFor, CompileRules, NewRules, Policy.Valid, Below, Above, Inside, Outside;
    var c := ch.next.config;
    StartsValid(ch, f);
    NewRulesFacts(ch, f);
    CompiledStrict(c, f);
    forall r ensures r in CompileRules(c, f) <==> r in NewRules(ch, f) && c.base <= r.priority < c.base + c.span {
      BlockAfterChange(ch, f, r);
    }
    BlockCut(NewRules(ch, f), c.base, c.base + c.span, CompileRules(c, f));
  }

  /** What the promise amounts to once the compiled routes are installed. */
  lemma PromiseOutcomes(c: Config, main: seq<Route>, ts: Tables, p: Packet)
    requires Policy.Valid(c) && TablesMatch(ts, Desired(c, main)) && p.dst.IsValid() && p.dst.zone == ""
    requires c.families.Has(p.dst.family)
    ensures var f := p.dst.family;
            var o := Promise(c, f, ts, p);
            var carried := c.tunnelFamilies.Has(f) || c.tunnelFamilies == FamilySet(false, false);
            && (AppMarked(c, p) ==> o == Blocked || (o.Via? && o.table == RT_TABLE_MAIN))
            && (AppMarked(c, p) ==> !UserMarked(c, p))
            && (!AppMarked(c, p) && !carried ==> o == Blocked)
            && (o.Via? && o.table == c.vpnTable ==>
                  && Nexthops(o.route) == [Nexthop(c.tunIndex, NoAddr, 0)]
                  && !AppMarked(c, p) && UserMarked(c, p) == c.mode.Include?)
            && (o.Via? && o.table == c.safeTable ==>
                  c.strictness.NonStrict? && !AppMarked(c, p) && (c.mode.Exclude? ==> !UserMarked(c, p)))
            && (o.NoRoute? ==> c.mode.Include? && c.strictness.NonStrict? && !AppMarked(c, p) && !UserMarked(c, p))
            && (c.strictness.Strict? && !AppMarked(c, p) && carried ==>
                  if UserMarked(c, p) == c.mode.Include? then o.Via? && o.table == c.vpnTable else o == Blocked)
  {
    hide LookupRoute, MarkMatches, TablesMatch, Desired, Nexthops, TableOf;
    hide SourceRoutesOk, MostSpecific, CoveredBy, MarksOverlap;
    var f := p.dst.family;
    MarksDisjoint(c, p);
    if TunnelFamilies(c).Has(f) {
      VpnLookup(c, main, ts, f, p.dst);
    }
  }

  lemma MarksDisjoint(c: Config, p: Packet)
    requires ScalarsOk(c)
    ensures !(AppMarked(c, p) && UserMarked(c, p))
  {
    if AppMarked(c, p) && UserMarked(c, p) {
      CommonMarkOverlaps(c.appMark, c.appMask, c.userMark, c.userMask, p.mark);
    }
  }
}
