/** The killswitch admin client: temporary rulesets merged into one mutation per
    connection, re-sent whenever the rulesets or the interface names change. */
module Killswitch {
  import opened Netip
  import opened Order
  import opened Strings

  const MAX_RULESET_ID := 0xffff_ffff_ffff_ffff

  datatype Kind = Marks | Ports | V4Hosts | V6Hosts | V4Pairs | V6Pairs

  datatype AllowRules = AllowRules(allowAll: bool, enableV4: bool, enableV6: bool,
                                   marks: seq<string>, ports: seq<string>, v4Hosts: seq<string>, v6Hosts: seq<string>,
                                   v4Pairs: seq<string>, v6Pairs: seq<string>) {
    function List(k: Kind): seq<string> {
      match k
      case Marks => marks
      case Ports => ports
      case V4Hosts => v4Hosts
      case V6Hosts => v6Hosts
      case V4Pairs => v4Pairs
      case V6Pairs => v6Pairs
    }
  }

  const NO_RULES := AllowRules(false, false, false, [], [], [], [], [], [])

  datatype Merged = Merged(interfaces: seq<string>, policy: AllowRules)

  type Rulesets = map<nat, AllowRules>

  /******* Merging *******/

  ghost predicate SomeHas(rs: Rulesets, k: Kind, x: string) {
    exists id :: id in rs && x in rs[id].List(k)
  }

  /** What one mutation must carry: every switch that some ruleset sets, and for every
      list the increasing list of exactly the union. `None` is a removal. */
  ghost predicate IsMerge(rs: Rulesets, names: seq<string>, m: Option<Merged>) {
    && (m.None? <==> rs == map[] || names == [])
    && (m.Some? ==>
          && m.value.interfaces == names
          && (m.value.policy.allowAll <==> exists id :: id in rs && rs[id].allowAll)
          && (m.value.policy.enableV4 <==> exists id :: id in rs && rs[id].enableV4)
          && (m.value.policy.enableV6 <==> exists id :: id in rs && rs[id].enableV6)
          && (forall k: Kind :: Increasing(m.value.policy.List(k)))
          && (forall k: Kind, x :: x in m.value.policy.List(k) <==> SomeHas(rs, k, x)))
  }

  lemma RulesEqual(a: AllowRules, b: AllowRules)
    requires a.allowAll == b.allowAll && a.enableV4 == b.enableV4 && a.enableV6 == b.enableV6
    requires forall k: Kind :: a.List(k) == b.List(k)
    ensures a == b
  {
    assert a.List(Marks) == b.List(Marks) && a.List(Ports) == b.List(Ports);
    assert a.List(V4Hosts) == b.List(V4Hosts) && a.List(V6Hosts) == b.List(V6Hosts);
    assert a.List(V4Pairs) == b.List(V4Pairs) && a.List(V6Pairs) == b.List(V6Pairs);
  }

  /** The mutation does not depend on the order in which the rulesets are visited. */
  lemma MergeIsUnique(rs: Rulesets, names: seq<string>, a: Option<Merged>, b: Option<Merged>)
    requires IsMerge(rs, names, a) && IsMerge(rs, names, b)
    ensures a == b
  {
    if a.Some? && b.Some? {
      forall k: Kind ensures a.value.policy.List(k) == b.value.policy.List(k) {
        var x, y := a.value.policy.List(k), b.value.policy.List(k);
        assert forall s :: s in x <==> SomeHas(rs, k, s);
        assert forall s :: s in y <==> SomeHas(rs, k, s);
        hide SomeHas;
        IncreasingUnique(x, y);
      }
      RulesEqual(a.value.policy, b.value.policy);
    }
  }

  function MergeAllowRules(a: AllowRules, b: AllowRules): (r: AllowRules)
    ensures forall k: Kind :: r.List(k) == a.List(k) + b.List(k)
  {
    AllowRules(a.allowAll || b.allowAll, a.enableV4 || b.enableV4, a.enableV6 || b.enableV6,
               a.marks + b.marks, a.ports + b.ports, a.v4Hosts + b.v4Hosts, a.v6Hosts + b.v6Hosts,
               a.v4Pairs + b.v4Pairs, a.v6Pairs + b.v6Pairs)
  }

  method NormalizeAllowRules(rules: AllowRules) returns (r: AllowRules)
    ensures r.allowAll == rules.allowAll && r.enableV4 == rules.enableV4 && r.enableV6 == rules.enableV6
    ensures forall k: Kind :: Increasing(r.List(k)) && forall x :: x in r.List(k) <==> x in rules.List(k)
  {
    hide Increasing;
    var marks := UniqueSortedStrings(rules.marks);
    var ports := UniqueSortedStrings(rules.ports);
    var v4Hosts := UniqueSortedStrings(rules.v4Hosts);
    var v6Hosts := UniqueSortedStrings(rules.v6Hosts);
    var v4Pairs := UniqueSortedStrings(rules.v4Pairs);
    var v6Pairs := UniqueSortedStrings(rules.v6Pairs);
    r := AllowRules(rules.allowAll, rules.enableV4, rules.enableV6, marks, ports, v4Hosts, v6Hosts, v4Pairs, v6Pairs);
    forall k: Kind ensures Increasing(r.List(k)) && forall x :: x in r.List(k) <==> x in rules.List(k) {
      match k case Marks => case Ports => case V4Hosts => case V6Hosts => case V4Pairs => case V6Pairs =>
    }
  }

  /** The keys in no particular order, then sorted. */
  method SortedIds(rs: Rulesets) returns (ids: seq<nat>)
    ensures forall id :: id in ids <==> id in rs
    ensures Order.Sorted((a: nat, b: nat) => a <= b, ids)
  {
    var todo := rs.Keys;
    ids := [];
    while todo != {}
      invariant todo <= rs.Keys
      invariant forall id :: id in ids <==> id in rs && id !in todo
      decreases todo
    {
      var id :| id in todo;
      ids := ids + [id];
      todo := todo - {id};
    }
    var le := (a: nat, b: nat) => a <= b;
    SortPermutes(le, ids);
    SortSorts(le, ids);
    ghost var before := ids;
    ids := Sort(le, ids);
    forall id ensures id in ids <==> id in before {
      assert id in multiset(ids) <==> id in multiset(before);
    }
  }

  /** What the first `n` rulesets contribute. */
  ghost predicate Collected(rs: Rulesets, ids: seq<nat>, policy: AllowRules)
    requires forall id | id in ids :: id in rs
  {
    && (policy.allowAll <==> exists id :: id in ids && rs[id].allowAll)
    && (policy.enableV4 <==> exists id :: id in ids && rs[id].enableV4)
    && (policy.enableV6 <==> exists id :: id in ids && rs[id].enableV6)
    && (forall k: Kind, x :: x in policy.List(k) <==> exists id :: id in ids && x in rs[id].List(k))
  }

  lemma CollectStep(rs: Rulesets, ids: seq<nat>, id: nat, policy: AllowRules)
    requires (forall i | i in ids :: i in rs) && id in rs && Collected(rs, ids, policy)
    ensures Collected(rs, ids + [id], MergeAllowRules(policy, rs[id]))
  {
    var next, more := MergeAllowRules(policy, rs[id]), ids + [id];
    forall k: Kind, x ensures x in next.List(k) <==> exists i :: i in more && x in rs[i].List(k) {
      if x in policy.List(k) {
        var i :| i in ids && x in rs[i].List(k);
        assert i in more;
      }
      if x in rs[id].List(k) {
        assert id in more;
      }
    }
    assert id in more;
  }

  method MergeTMPRulesets(rs: Rulesets, names: seq<string>) returns (m: Option<Merged>)
    ensures IsMerge(rs, names, m)
  {
    if |rs| == 0 || names == [] {
      return None;
    }
    var ids := SortedIds(rs);
    var policy := NO_RULES;
    for i := 0 to |ids|
      invariant Collected(rs, ids[..i], policy)
    {
      hide Collected;
      assert ids[..i + 1] == ids[..i] + [ids[i]];
      CollectStep(rs, ids[..i], ids[i], policy);
      policy := MergeAllowRules(policy, rs[ids[i]]);
    }
    assert ids[..|ids|] == ids;
    ghost var collected := policy;
    policy := NormalizeAllowRules(policy);
    NormalMerge(rs, ids, collected, policy);
    return Some(Merged(names, policy));
  }

  lemma NormalMerge(rs: Rulesets, ids: seq<nat>, collected: AllowRules, policy: AllowRules)
    requires forall id :: id in ids <==> id in rs
    requires Collected(rs, ids, collected)
    requires forall k: Kind, x :: x in policy.List(k) <==> x in collected.List(k)
    ensures forall k: Kind, x :: x in policy.List(k) <==> SomeHas(rs, k, x)
  {
  }

  /******* Client state *******/

  datatype State = State(closed: bool, version: nat, nextId: nat, rulesets: Rulesets, names: seq<string>, known: bool)

  datatype Op =
    | Create(rules: AllowRules)
    | Update(id: nat, rules: AllowRules)
    | Delete(id: nat)
    | SetInterfaces(interfaces: seq<string>)
    | ResetInterfaces

  function NonEmpty(ss: seq<string>): seq<string> {
    Filter((s: string) => s != "", ss)
  }

  lemma {:induction false} NonEmptyNames(ss: seq<string>)
    ensures forall x :: x in NonEmpty(ss) <==> x in ss && x != ""
  {
    if ss != [] {
      NonEmptyNames(ss[1..]);
      assert ss == [ss[0]] + ss[1..];
    }
  }

  predicate Refused(s: State, op: Op) {
    match op
    case Create(_) => s.closed || s.nextId == MAX_RULESET_ID
    case Update(id, _) => s.closed || id !in s.rulesets
    case Delete(id) => s.closed || id !in s.rulesets
    case SetInterfaces(ifs) => s.closed || (s.known && s.names == UniqueSorted(NonEmpty(ifs)))
    case ResetInterfaces => false
  }

  /** Every operation that is not refused changes the rulesets or the names and counts
      one version further. */
  function Apply(s: State, op: Op): State {
    if Refused(s, op) then s
    else
      var t := s.(version := s.version + 1);
      match op
      case Create(rules) => t.(nextId := s.nextId + 1, rulesets := s.rulesets[s.nextId + 1 := rules])
      case Update(id, rules) => t.(rulesets := s.rulesets[id := rules])
      case Delete(id) => t.(rulesets := s.rulesets - {id})
      case SetInterfaces(ifs) => t.(names := UniqueSorted(NonEmpty(ifs)), known := true)
      case ResetInterfaces => t.(names := [], known := false)
  }

  /******* What a sequence of operations leaves *******/

  const NEW_CLIENT := State(false, 0, 0, map[], [], false)

  /** `None` is closing the client, which keeps what it stores. */
  function Next(s: State, op: Option<Op>): State {
    if op.None? then s.(closed := true) else Apply(s, op.value)
  }

  ghost predicate Run(ss: seq<State>, ops: seq<Option<Op>>) {
    && |ss| == |ops| + 1 && ss[0] == NEW_CLIENT
    && forall i | 0 <= i < |ops| :: ss[i + 1] == Next(ss[i], ops[i])
  }

  /** The rules that an operation gives to `id`: by creating the ruleset or replacing it. */
  function Given(s: State, op: Option<Op>, id: nat): Option<AllowRules> {
    match op
    case Some(Create(rules)) =>
      if !s.closed && s.nextId != MAX_RULESET_ID && id == s.nextId + 1 then Some(rules) else None
    case Some(Update(k, rules)) => if !s.closed && id in s.rulesets && k == id then Some(rules) else None
    case _ => None
  }

  predicate Takes(s: State, op: Option<Op>, id: nat) {
    op == Some(Delete(id)) && !s.closed
  }

  /** Step `i` gave `id` these rules and no later one before `n` touched it. */
  ghost predicate LastGiven(ss: seq<State>, ops: seq<Option<Op>>, n: nat, i: nat, id: nat, rules: AllowRules)
    requires n <= |ops| < |ss|
  {
    && i < n && Given(ss[i], ops[i], id) == Some(rules)
    && forall j | i < j < n :: !Takes(ss[j], ops[j], id) && Given(ss[j], ops[j], id) == None
  }

  lemma StepStores(s: State, op: Option<Op>, id: nat)
    ensures var t := Next(s, op).rulesets;
            && (Given(s, op, id).Some? ==> id in t && t[id] == Given(s, op, id).value && !Takes(s, op, id))
            && (Takes(s, op, id) ==> id !in t)
            && (!Takes(s, op, id) && Given(s, op, id).None? ==>
                  && (id in t <==> id in s.rulesets) && (id in t ==> t[id] == s.rulesets[id]))
  {
    hide UniqueSorted, NonEmpty;
  }

  /** Over every run: what is stored under an id is what the last Create or Update that was
      not refused gave it, unless a Delete came after. */
  lemma {:induction false} StoredIsLastGiven(ss: seq<State>, ops: seq<Option<Op>>, n: nat, id: nat, rules: AllowRules)
    requires Run(ss, ops) && n <= |ops|
    ensures id in ss[n].rulesets && ss[n].rulesets[id] == rules <==> exists i :: LastGiven(ss, ops, n, i, id, rules)
  {
    if n > 0 {
      var m := n - 1;
      StoredIsLastGiven(ss, ops, m, id, rules);
      StepStores(ss[m], ops[m], id);
      hide Given, Takes, Next;
      var touched := Takes(ss[m], ops[m], id) || Given(ss[m], ops[m], id) != None;
      if Given(ss[m], ops[m], id) == Some(rules) {
        assert LastGiven(ss, ops, n, m, id, rules);
      } else {
        forall i: nat ensures LastGiven(ss, ops, n, i, id, rules) <==> LastGiven(ss, ops, m, i, id, rules) && !touched {
        }
        if exists i :: LastGiven(ss, ops, m, i, id, rules) {
          var i :| LastGiven(ss, ops, m, i, id, rules);
          assert LastGiven(ss, ops, n, i, id, rules) <==> !touched;
        }
      }
    }
  }

  class Client {
    var closed: bool
    var version: nat
    var nextId: nat
    var rulesets: Rulesets
    var names: seq<string>
    var known: bool
    var wake: bool

    constructor ()
      ensures Value() == NEW_CLIENT && !wake
    {
      closed, version, nextId, rulesets, names, known, wake := false, 0, 0, map[], [], false, false;
    }

    function Value(): State
      reads this
    {
      State(closed, version, nextId, rulesets, names, known)
    }

    /** Identifiers are never reused. */
    ghost predicate Valid()
      reads this
    {
      nextId <= MAX_RULESET_ID && forall id | id in rulesets :: 0 < id <= nextId
    }

    /** Fills the one-slot wake channel; a full one stays full. */
    method Notify()
      modifies this`wake
      ensures wake
    {
      if !wake {
        wake := true;
      }
    }

    method Changed()
      modifies this`version, this`wake
      ensures version == old(version) + 1 && wake
    {
      version := version + 1;
      Notify();
    }

    method CreateTMPRuleset(rules: AllowRules) returns (id: Option<nat>)
      requires Valid()
      modifies this
      ensures Valid() && Value() == Apply(old(Value()), Create(rules))
      ensures wake == (old(wake) || id.Some?) && id.None? == Refused(old(Value()), Create(rules))
      ensures id.Some? ==> id.value !in old(rulesets) && rulesets == old(rulesets)[id.value := rules]
      ensures id.None? ==> (closed || old(nextId) == MAX_RULESET_ID) && rulesets == old(rulesets)
      ensures names == old(names) && known == old(known)
    {
      if closed || nextId == MAX_RULESET_ID {
        return None;
      }
      nextId := nextId + 1;
      rulesets := rulesets[nextId := rules];
      Changed();
      return Some(nextId);
    }

    method UpdateTMPRuleset(id: nat, rules: AllowRules) returns (ok: bool)
      requires Valid()
      modifies this
      ensures Valid() && Value() == Apply(old(Value()), Update(id, rules))
      ensures wake == (old(wake) || ok) && ok == !Refused(old(Value()), Update(id, rules))
      ensures ok <==> !closed && id in old(rulesets)
      ensures rulesets == if ok then old(rulesets)[id := rules] else old(rulesets)
      ensures names == old(names) && known == old(known)
    {
      if closed || id !in rulesets {
        return false;
      }
      rulesets := rulesets[id := rules];
      Changed();
      return true;
    }

    method DeleteTMPRuleset(id: nat) returns (ok: bool)
      requires Valid()
      modifies this
      ensures Valid() && Value() == Apply(old(Value()), Delete(id))
      ensures ok == !closed && wake == (old(wake) || version != old(version))
      ensures rulesets == if ok then old(rulesets) - {id} else old(rulesets)
      ensures names == old(names) && known == old(known)
    {
      if closed {
        return false;
      }
      if id !in rulesets {
        return true;
      }
      rulesets := rulesets - {id};
      Changed();
      return true;
    }

    method ResetInterfaceNames()
      requires Valid()
      modifies this
      ensures Valid() && Value() == Apply(old(Value()), ResetInterfaces) && wake
      ensures names == [] && !known && version == old(version) + 1 && rulesets == old(rulesets)
    {
      names, known := [], false;
      Changed();
    }

    method SetInterfaceNames(interfaces: seq<string>)
      requires Valid()
      modifies this
      ensures Valid() && Value() == Apply(old(Value()), SetInterfaces(interfaces))
      ensures wake == (old(wake) || version != old(version)) && rulesets == old(rulesets)
      ensures !closed ==> known && Increasing(names) && forall x :: x in names <==> x in interfaces && x != ""
      ensures version == old(version) + if names == old(names) && known == old(known) then 0 else 1
    {
      NonEmptyNames(interfaces);
      var nonEmpty: seq<string> := [];
      for i := 0 to |interfaces|
        invariant nonEmpty == NonEmpty(interfaces[..i])
        invariant Valid() && Value() == old(Value()) && wake == old(wake)
      {
        assert interfaces[..i + 1] == interfaces[..i] + [interfaces[i]];
        FilterSnoc((s: string) => s != "", interfaces[..i], interfaces[i]);
        if interfaces[i] != "" {
          nonEmpty := nonEmpty + [interfaces[i]];
        }
      }
      assert interfaces[..|interfaces|] == interfaces;
      var unique := UniqueSortedStrings(nonEmpty);
      if closed || (known && names == unique) {
        return;
      }
      names, known := unique, true;
      Changed();
    }

    /** Stops the client; what it stores stays. */
    method Close()
      requires Valid()
      modifies this
      ensures Valid() && Value() == old(Value()).(closed := true) && wake == (old(wake) || !old(closed))
    {
      if closed {
        return;
      }
      closed := true;
      Notify();
    }

    /** The version together with the merge of exactly that version. */
    method Snapshot() returns (at: nat, merged: Option<Merged>, ready: bool, ok: bool)
      ensures ok == !closed && (ok ==> at == version && ready == known)
      ensures ok && ready ==> IsMerge(rulesets, names, merged)
    {
      if closed {
        return 0, None, false, false;
      }
      if !known {
        return version, None, false, true;
      }
      merged := MergeTMPRulesets(rulesets, names);
      return version, merged, true, true;
    }
  }
}
