/** The netlink adapter: a kernel that is changed one call at a time. Any call may
    fail, and a failed call changes nothing. `trace` records the kernel after every
    call that can change it. */
module Adapters {
  import opened Netip
  import opened Policy
  import opened Kernel
  import opened Steps

  ghost predicate TablesWf(ts: Tables) {
    forall id, key | id in ts && key in ts[id] :: IdOf(ts[id][key]) == id && KeyOf(ts[id][key]) == key
  }

  /** The listing of a table: each of its routes, in some order. */
  ghost predicate Lists(t: RouteTable, routes: seq<Route>) {
    && (forall key | key in t :: t[key] in routes)
    && (forall r | r in routes :: KeyOf(r) in t && t[KeyOf(r)] == r)
  }

  class Adapter {
    var state: KernelState
    var calls: nat
    ghost var trace: seq<KernelState>
    const fails: nat -> bool
    const links: set<int>

    constructor (initial: KernelState, fails: nat -> bool, links: set<int>)
      requires TablesWf(initial.tables)
      ensures Valid() && state == initial && this.fails == fails && this.links == links && calls == 0 && trace == []
    {
      state := initial;
      calls := 0;
      trace := [];
      this.fails, this.links := fails, links;
    }

    ghost predicate Valid()
      reads this
    {
      TablesWf(state.tables)
    }

    /** No call numbered from `a` up to `b` failed. */
    ghost predicate NoFailure(a: nat, b: nat) {
      forall i | a <= i < b :: !fails(i)
    }

    method AddRule(r: Rule) returns (ok: bool)
      requires Valid()
      modifies this
      ensures Valid() && calls == old(calls) + 1 && ok == !fails(old(calls))
      ensures state == (if ok then Added(old(state), r) else old(state))
      ensures trace == old(trace) + [state]
    {
      ok := !fails(calls);
      if ok {
        state := Added(state, r);
      }
      calls := calls + 1;
      trace := trace + [state];
    }

    method DeleteRule(spec: Rule) returns (ok: bool)
      requires Valid()
      modifies this
      ensures Valid() && calls == old(calls) + 1 && ok == !fails(old(calls))
      ensures state == (if ok then Removed(old(state), spec) else old(state))
      ensures trace == old(trace) + [state]
    {
      ok := !fails(calls);
      if ok {
        state := Removed(state, spec);
      }
      calls := calls + 1;
      trace := trace + [state];
    }

    method ReplaceRoute(r: Route) returns (ok: bool)
      requires Valid()
      modifies this
      ensures Valid() && calls == old(calls) + 1 && ok == !fails(old(calls))
      ensures state == (if ok then old(state).(tables := Kernel.ReplaceRoute(old(state).tables, r)) else old(state))
      ensures trace == old(trace) + [state]
    {
      ok := !fails(calls);
      if ok {
        state := state.(tables := Kernel.ReplaceRoute(state.tables, r));
      }
      calls := calls + 1;
      trace := trace + [state];
    }

    method DeleteRoute(r: Route) returns (ok: bool)
      requires Valid()
      modifies this
      ensures Valid() && calls == old(calls) + 1 && ok == !fails(old(calls))
      ensures state == (if ok then old(state).(tables := Kernel.DeleteRoute(old(state).tables, r)) else old(state))
      ensures trace == old(trace) + [state]
    {
      ok := !fails(calls);
      if ok {
        state := state.(tables := Kernel.DeleteRoute(state.tables, r));
      }
      calls := calls + 1;
      trace := trace + [state];
    }

    /** Listing shows rules through the lossy view of the netlink library. */
    method ListRules(f: Family) returns (ok: bool, rules: seq<Rule>)
      modifies this`calls
      ensures calls == old(calls) + 1 && ok == !fails(old(calls))
      ensures ok ==> rules == Listed(state.Rules(f))
    {
      ok := !fails(calls);
      calls := calls + 1;
      rules := Listed(state.Rules(f));
    }

    method ListRoutes(f: Family, t: int) returns (ok: bool, routes: seq<Route>)
      requires Valid()
      modifies this`calls
      ensures calls == old(calls) + 1 && ok == !fails(old(calls))
      ensures ok ==> Lists(TableOf(state.tables, TableId(f, t)), routes)
    {
      ok := !fails(calls);
      calls := calls + 1;
      var table := TableOf(state.tables, TableId(f, t));
      var todo := table.Keys;
      routes := [];
      while todo != {}
        invariant todo <= table.Keys
        invariant forall key | key in table.Keys - todo :: table[key] in routes
        invariant forall r | r in routes :: KeyOf(r) in table && table[KeyOf(r)] == r
        decreases todo
      {
        var key :| key in todo;
        routes := routes + [table[key]];
        todo := todo - {key};
      }
    }

    /** An error also if there is no link with this index. */
    method LinkByIndex(index: int) returns (ok: bool)
      modifies this`calls
      ensures calls == old(calls) + 1 && ok == (!fails(old(calls)) && index in links)
    {
      ok := !fails(calls) && index in links;
      calls := calls + 1;
    }
  }
}
