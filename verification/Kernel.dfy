/** The part of the Linux kernel that policy routing uses: per family a list of
    rules ordered by priority with ties in insertion order, and route tables looked
    up by longest prefix. A lookup that misses falls through to the next rule; a hit
    or an unreachable rule stops. */
module Kernel {
  import opened Netip
  import opened Policy

  /******* Route tables *******/

  datatype RouteKey = RouteKey(dst: Prefix, priority: int)
  type RouteTable = map<RouteKey, Route>
  datatype TableId = TableId(family: Family, table: int)
  type Tables = map<TableId, RouteTable>

  function KeyOf(r: Route): RouteKey {
    RouteKey(r.dst, r.priority)
  }

  function IdOf(r: Route): TableId {
    TableId(r.family, r.table)
  }

  function TableOf(ts: Tables, id: TableId): RouteTable {
    if id in ts then ts[id] else map[]
  }

  predicate Covers(t: RouteTable, k: RouteKey, a: Addr) {
    k in t && k.dst.Contains(a)
  }

  predicate Better(j: RouteKey, k: RouteKey) {
    j.dst.len > k.dst.len || (j.dst.len == k.dst.len && j.priority < k.priority)
  }

  /** Longest prefix first, then the lowest metric. */
  ghost predicate IsBest(t: RouteTable, a: Addr, k: RouteKey) {
    Covers(t, k, a) && forall j | Covers(t, j, a) :: !Better(j, k)
  }

  lemma BestExists(t: RouteTable, a: Addr, ks: set<RouteKey>)
    requires ks != {} && forall k | k in ks :: Covers(t, k, a)
    ensures exists k :: k in ks && forall j | j in ks :: !Better(j, k)
    decreases |ks|
  {
    var k :| k in ks;
    if ks == {k} {
    } else {
      BestExists(t, a, ks - {k});
      var b :| b in ks - {k} && forall j | j in ks - {k} :: !Better(j, b);
      var best := if Better(k, b) then k else b;
      assert forall j | j in ks :: j == k || j in ks - {k};
      assert best in ks && forall j | j in ks :: !Better(j, best);
    }
  }

  ghost function LookupRoute(t: RouteTable, a: Addr): (r: Option<Route>)
    ensures r.None? <==> forall k :: !Covers(t, k, a)
    ensures r.Some? ==> exists k :: IsBest(t, a, k) && r.value == t[k]
  {
    if forall k :: !Covers(t, k, a) then None
    else
      var ks := set k | k in t && k.dst.Contains(a);
      assert exists k :: IsBest(t, a, k) by {
        var k0 :| Covers(t, k0, a);
        assert k0 in ks;
        BestExists(t, a, ks);
        var k :| k in ks && forall j | j in ks :: !Better(j, k);
        assert IsBest(t, a, k);
      }
      var k :| IsBest(t, a, k);
      Some(t[k])
  }

  /******* Evaluation *******/

  datatype Packet = Packet(mark: bv32, dst: Addr)

  datatype Outcome = NoRoute | Blocked | Via(table: int, route: Route)

  /** What one rule does with a packet; `NoRoute` means evaluation goes on. */
  ghost function Decide(r: Rule, ts: Tables, p: Packet): Outcome {
    if !MarkMatches(r.mark, r.mask, p.mark) then NoRoute
    else if r.action.Unreachable? then Blocked
    else
      var found := LookupRoute(TableOf(ts, TableId(r.family, r.table)), p.dst);
      if found.Some? then Via(r.table, found.value) else NoRoute
  }

  ghost function Eval(rs: seq<Rule>, ts: Tables, p: Packet): Outcome {
    if rs == [] then NoRoute
    else if Decide(rs[0], ts, p) != NoRoute then Decide(rs[0], ts, p)
    else Eval(rs[1..], ts, p)
  }

  lemma {:induction false} EvalConcat(a: seq<Rule>, b: seq<Rule>, ts: Tables, p: Packet)
    ensures Eval(a + b, ts, p) == if Eval(a, ts, p).NoRoute? then Eval(b, ts, p) else Eval(a, ts, p)
  {
    if a == [] {
      assert a + b == b;
    } else {
      EvalConcat(a[1..], b, ts, p);
      assert (a + b)[1..] == a[1..] + b;
    }
  }

  /** Evaluation only depends on the tables its lookup rules name. */
  lemma {:induction false} EvalFrame(rs: seq<Rule>, ts: Tables, us: Tables, p: Packet)
    requires forall r | r in rs && r.action.Lookup? ::
               TableOf(ts, TableId(r.family, r.table)) == TableOf(us, TableId(r.family, r.table))
    ensures Eval(rs, ts, p) == Eval(rs, us, p)
  {
    if rs != [] {
      assert rs[0] in rs;
      EvalFrame(rs[1..], ts, us, p);
    }
  }

  predicate CatchAll(r: Rule) {
    r.action.Unreachable? && r.mask == 0
  }

  lemma CatchAllBlocks(g: Rule, ts: Tables, p: Packet)
    requires CatchAll(g)
    ensures Decide(g, ts, p) == Blocked
  {
  }

  function Without(gs: set<Rule>, rs: seq<Rule>): seq<Rule> {
    if rs == [] then []
    else (if rs[0] in gs then [] else [rs[0]]) + Without(gs, rs[1..])
  }

  /** Inserting catch-all unreachable rules anywhere can only turn an outcome into
      "unreachable". */
  lemma {:induction false} CatchAllOnlyBlocks(gs: set<Rule>, rs: seq<Rule>, ts: Tables, p: Packet)
    requires forall g | g in gs :: CatchAll(g)
    ensures Eval(rs, ts, p) == Blocked || Eval(rs, ts, p) == Eval(Without(gs, rs), ts, p)
  {
    if rs != [] {
      CatchAllOnlyBlocks(gs, rs[1..], ts, p);
      if rs[0] in gs {
        CatchAllBlocks(rs[0], ts, p);
      } else {
        var w := Without(gs, rs);
        assert w[0] == rs[0] && w[1..] == Without(gs, rs[1..]);
      }
    }
  }

  /******* Rule lists *******/

  ghost predicate Sorted(rs: seq<Rule>) {
    forall i, j | 0 <= i < j < |rs| :: rs[i].priority <= rs[j].priority
  }

  ghost predicate NoDup(rs: seq<Rule>) {
    forall i, j | 0 <= i < j < |rs| :: rs[i] != rs[j]
  }

  /** After every rule of the same or a lower priority number. */
  function InsertRule(rs: seq<Rule>, r: Rule): seq<Rule> {
    if rs == [] || r.priority < rs[0].priority then [r] + rs
    else [rs[0]] + InsertRule(rs[1..], r)
  }

  /** An exact duplicate is refused by the kernel, which the adapter reports as success. */
  function AddRule(rs: seq<Rule>, r: Rule): seq<Rule> {
    if r in rs then rs else InsertRule(rs, r)
  }

  /** A deletion request names a family and a priority; of the other fields it fixes
      the ones it sets: the action only when it is unreachable, the table, mark and
      mask only when they are not zero. */
  predicate SpecMatches(spec: Rule, r: Rule) {
    && r.family == spec.family && r.priority == spec.priority
    && (spec.action.Unreachable? ==> r.action.Unreachable?)
    && (spec.action.Lookup? && spec.table != 0 ==> r.table == spec.table)
    && (spec.mark != 0 ==> r.mark == spec.mark)
    && (spec.mask != 0 ==> r.mask == spec.mask)
  }

  /** The kernel removes the first rule that matches; no match is reported as success. */
  function RemoveRule(rs: seq<Rule>, spec: Rule): seq<Rule> {
    if rs == [] then []
    else if SpecMatches(spec, rs[0]) then rs[1..]
    else [rs[0]] + RemoveRule(rs[1..], spec)
  }

  /** What listing shows of a rule: the action and tables below 256 are lost. */
  function ListedRule(r: Rule): Rule {
    r.(action := Lookup, table := if r.table < 256 then 0 else r.table)
  }

  function Listed(rs: seq<Rule>): seq<Rule> {
    seq(|rs|, i requires 0 <= i < |rs| => ListedRule(rs[i]))
  }

  lemma SpecMatchesItself(r: Rule)
    ensures SpecMatches(r, r) && SpecMatches(ListedRule(r), r)
  {
  }

  /** `g` is in the list and no rule of its priority precedes it. */
  predicate FirstAt(rs: seq<Rule>, g: Rule) {
    rs != [] && (rs[0] == g || (rs[0].priority != g.priority && FirstAt(rs[1..], g)))
  }

  lemma {:induction false} InsertMembers(rs: seq<Rule>, r: Rule)
    ensures forall x :: x in InsertRule(rs, r) <==> x in rs || x == r
  {
    if rs != [] && rs[0].priority <= r.priority {
      InsertMembers(rs[1..], r);
      assert rs == [rs[0]] + rs[1..];
    }
  }

  lemma ConsSorted(x: Rule, rest: seq<Rule>)
    requires Sorted(rest) && forall y | y in rest :: x.priority <= y.priority
    ensures Sorted([x] + rest)
  {
    assert forall j | 0 <= j < |rest| :: rest[j] in rest;
  }

  lemma ConsNoDup(x: Rule, rest: seq<Rule>)
    requires NoDup(rest) && x !in rest
    ensures NoDup([x] + rest)
  {
  }

  lemma TailFacts(rs: seq<Rule>)
    requires rs != []
    ensures Sorted(rs) ==> Sorted(rs[1..]) && forall y | y in rs[1..] :: rs[0].priority <= y.priority
    ensures NoDup(rs) ==> NoDup(rs[1..]) && rs[0] !in rs[1..]
  {
  }

  lemma {:induction false} InsertSorted(rs: seq<Rule>, r: Rule)
    requires Sorted(rs)
    ensures Sorted(InsertRule(rs, r))
  {
    if rs != [] {
      TailFacts(rs);
      if rs[0].priority <= r.priority {
        InsertSorted(rs[1..], r);
        InsertMembers(rs[1..], r);
        ConsSorted(rs[0], InsertRule(rs[1..], r));
      } else {
        assert rs == [rs[0]] + rs[1..];
        ConsSorted(r, rs);
      }
    }
  }

  lemma {:induction false} InsertNoDup(rs: seq<Rule>, r: Rule)
    requires NoDup(rs) && r !in rs
    ensures NoDup(InsertRule(rs, r))
  {
    if rs != [] && rs[0].priority <= r.priority {
      TailFacts(rs);
      assert rs == [rs[0]] + rs[1..];
      InsertNoDup(rs[1..], r);
      InsertMembers(rs[1..], r);
      ConsNoDup(rs[0], InsertRule(rs[1..], r));
    } else {
      ConsNoDup(r, rs);
    }
  }

  lemma InsertFacts(rs: seq<Rule>, r: Rule)
    ensures forall x :: x in InsertRule(rs, r) <==> x in rs || x == r
    ensures Sorted(rs) ==> Sorted(InsertRule(rs, r))
    ensures NoDup(rs) && r !in rs ==> NoDup(InsertRule(rs, r))
  {
    hide Sorted, NoDup, InsertRule;
    InsertMembers(rs, r);
    if Sorted(rs) { InsertSorted(rs, r); }
    if NoDup(rs) && r !in rs { InsertNoDup(rs, r); }
  }

  lemma AddFacts(rs: seq<Rule>, r: Rule)
    ensures forall x :: x in AddRule(rs, r) <==> x in rs || x == r
    ensures Sorted(rs) ==> Sorted(AddRule(rs, r))
    ensures NoDup(rs) ==> NoDup(AddRule(rs, r))
  {
    InsertFacts(rs, r);
  }

  lemma {:induction false} RemoveMembers(rs: seq<Rule>, spec: Rule)
    ensures forall x :: x in RemoveRule(rs, spec) ==> x in rs
    ensures forall x :: x in rs && !SpecMatches(spec, x) ==> x in RemoveRule(rs, spec)
  {
    hide SpecMatches;
    if rs != [] {
      assert rs == [rs[0]] + rs[1..];
      if !SpecMatches(spec, rs[0]) {
        RemoveMembers(rs[1..], spec);
      }
    }
  }

  lemma {:induction false} RemoveSorted(rs: seq<Rule>, spec: Rule)
    requires Sorted(rs)
    ensures Sorted(RemoveRule(rs, spec))
  {
    hide SpecMatches;
    if rs != [] {
      TailFacts(rs);
      if !SpecMatches(spec, rs[0]) {
        RemoveSorted(rs[1..], spec);
        RemoveMembers(rs[1..], spec);
        ConsSorted(rs[0], RemoveRule(rs[1..], spec));
      }
    }
  }

  lemma {:induction false} RemoveNoDup(rs: seq<Rule>, spec: Rule)
    requires NoDup(rs)
    ensures NoDup(RemoveRule(rs, spec))
  {
    hide SpecMatches;
    if rs != [] {
      TailFacts(rs);
      if !SpecMatches(spec, rs[0]) {
        RemoveNoDup(rs[1..], spec);
        RemoveMembers(rs[1..], spec);
        ConsNoDup(rs[0], RemoveRule(rs[1..], spec));
      }
    }
  }

  lemma RemoveFacts(rs: seq<Rule>, spec: Rule)
    ensures forall x :: x in RemoveRule(rs, spec) ==> x in rs
    ensures forall x :: x in rs && !SpecMatches(spec, x) ==> x in RemoveRule(rs, spec)
    ensures Sorted(rs) ==> Sorted(RemoveRule(rs, spec))
    ensures NoDup(rs) ==> NoDup(RemoveRule(rs, spec))
  {
    hide Sorted, NoDup, RemoveRule, SpecMatches;
    RemoveMembers(rs, spec);
    if Sorted(rs) { RemoveSorted(rs, spec); }
    if NoDup(rs) { RemoveNoDup(rs, spec); }
  }

  lemma {:induction false} FirstAtMember(rs: seq<Rule>, g: Rule)
    requires FirstAt(rs, g)
    ensures g in rs
  {
    if rs[0] != g {
      FirstAtMember(rs[1..], g);
    }
  }

  /** The request for a rule that comes first at its priority removes that rule. */
  lemma {:induction false} RemoveFirstAt(rs: seq<Rule>, spec: Rule, g: Rule)
    requires NoDup(rs) && FirstAt(rs, g) && SpecMatches(spec, g)
    ensures forall x :: x in RemoveRule(rs, spec) <==> x in rs && x != g
  {
    assert rs == [rs[0]] + rs[1..];
    if rs[0] != g {
      RemoveFirstAt(rs[1..], spec, g);
      assert RemoveRule(rs, spec) == [rs[0]] + RemoveRule(rs[1..], spec);
    }
  }

  lemma {:induction false} FirstAtInsert(rs: seq<Rule>, r: Rule, g: Rule)
    requires FirstAt(rs, g) && Sorted(rs)
    ensures FirstAt(InsertRule(rs, r), g)
  {
    if rs[0] != g {
      if rs[0].priority <= r.priority {
        FirstAtInsert(rs[1..], r, g);
      } else {
        FirstAtMember(rs, g);
        assert ([r] + rs)[1..] == rs;
      }
    } else if r.priority < g.priority {
      assert ([r] + rs)[1..] == rs;
    }
  }

  /** A request that only `r` can match takes exactly `r` away. */
  lemma {:induction false} RemoveOnly(rs: seq<Rule>, spec: Rule, r: Rule)
    requires NoDup(rs) && SpecMatches(spec, r) && forall x | x in rs && SpecMatches(spec, x) :: x == r
    ensures forall x :: x in RemoveRule(rs, spec) <==> x in rs && x != r
  {
    if rs != [] {
      TailFacts(rs);
      assert rs == [rs[0]] + rs[1..];
      if !SpecMatches(spec, rs[0]) {
        RemoveOnly(rs[1..], spec, r);
        assert RemoveRule(rs, spec) == [rs[0]] + RemoveRule(rs[1..], spec);
      } else {
        assert rs[0] in rs;
      }
    }
  }

  /** A request does not take away a rule it does not match. */
  lemma {:induction false} RemoveSpares(rs: seq<Rule>, spec: Rule, x: Rule)
    requires x in rs && !SpecMatches(spec, x)
    ensures x in RemoveRule(rs, spec)
  {
    assert rs == [rs[0]] + rs[1..];
    if !SpecMatches(spec, rs[0]) && rs[0] != x {
      RemoveSpares(rs[1..], spec, x);
    }
  }

  lemma {:induction false} OnlyAtIsFirst(rs: seq<Rule>, g: Rule)
    requires g in rs && forall x | x in rs && x.priority == g.priority :: x == g
    ensures FirstAt(rs, g)
  {
    assert rs[0] in rs;
    if rs[0] != g {
      OnlyAtIsFirst(rs[1..], g);
    }
  }

  /** `g` is in the list and no unreachable rule of its priority precedes it. */
  predicate FirstBlock(rs: seq<Rule>, g: Rule) {
    && rs != []
    && (rs[0] == g || (!(rs[0].priority == g.priority && rs[0].action.Unreachable?) && FirstBlock(rs[1..], g)))
  }

  lemma {:induction false} FirstBlockMember(rs: seq<Rule>, g: Rule)
    requires FirstBlock(rs, g)
    ensures g in rs
  {
    if rs[0] != g {
      FirstBlockMember(rs[1..], g);
    }
  }

  lemma {:induction false} LookupsOnly(rs: seq<Rule>, g: Rule)
    requires g in rs && forall x | x in rs && x.priority == g.priority && x != g :: x.action.Lookup?
    ensures FirstBlock(rs, g)
  {
    assert rs == [rs[0]] + rs[1..] && rs[0] in rs;
    if rs[0] != g {
      LookupsOnly(rs[1..], g);
    }
  }

  lemma {:induction false} FirstBlockInsert(rs: seq<Rule>, r: Rule, g: Rule)
    requires FirstBlock(rs, g) && Sorted(rs)
    ensures FirstBlock(InsertRule(rs, r), g)
  {
    FirstBlockMember(rs, g);
    TailFacts(rs);
    if r.priority < rs[0].priority {
      assert rs == [rs[0]] + rs[1..];
      assert ([r] + rs)[1..] == rs;
    } else if rs[0] != g {
      FirstBlockInsert(rs[1..], r, g);
      assert InsertRule(rs, r)[1..] == InsertRule(rs[1..], r);
    }
  }

  /** The request for an unmarked unreachable rule removes the first unreachable rule of its priority. */
  lemma {:induction false} RemoveFirstBlock(rs: seq<Rule>, g: Rule)
    requires NoDup(rs) && FirstBlock(rs, g) && CatchAll(g) && g.mark == 0
    ensures forall x :: x in RemoveRule(rs, g) <==> x in rs && x != g
  {
    TailFacts(rs);
    assert rs == [rs[0]] + rs[1..];
    if rs[0] != g {
      RemoveFirstBlock(rs[1..], g);
      assert RemoveRule(rs, g) == [rs[0]] + RemoveRule(rs[1..], g);
    }
  }

  lemma {:induction false} FirstBlockRemove(rs: seq<Rule>, spec: Rule, g: Rule)
    requires FirstBlock(rs, g) && spec.priority != g.priority
    ensures FirstBlock(RemoveRule(rs, spec), g)
  {
    if rs[0] != g && !SpecMatches(spec, rs[0]) {
      FirstBlockRemove(rs[1..], spec, g);
    }
  }

  /******* Lists with rules left out *******/

  /** `a` is `b` with some rules left out. */
  predicate Part(a: seq<Rule>, b: seq<Rule>)
    decreases |b|
  {
    a == [] || (b != [] && ((a[0] == b[0] && Part(a[1..], b[1..])) || Part(a, b[1..])))
  }

  lemma {:induction false} PartSelf(a: seq<Rule>)
    ensures Part(a, a)
  {
    if a != [] {
      PartSelf(a[1..]);
    }
  }

  lemma {:induction false} PartRemove(a: seq<Rule>, b: seq<Rule>, spec: Rule)
    requires Part(a, b)
    ensures Part(RemoveRule(a, spec), b)
    decreases |b|
  {
    if a != [] {
      if a[0] == b[0] && Part(a[1..], b[1..]) {
        if !SpecMatches(spec, a[0]) {
          PartRemove(a[1..], b[1..], spec);
          assert RemoveRule(a, spec)[1..] == RemoveRule(a[1..], spec);
        }
      } else {
        PartRemove(a, b[1..], spec);
      }
    }
  }

  lemma {:induction false} PartTrans(a: seq<Rule>, b: seq<Rule>, c: seq<Rule>)
    requires Part(a, b) && Part(b, c)
    ensures Part(a, c)
    decreases |c|
  {
    if a != [] {
      if b[0] == c[0] && Part(b[1..], c[1..]) {
        if a[0] == b[0] && Part(a[1..], b[1..]) {
          PartTrans(a[1..], b[1..], c[1..]);
        } else {
          PartTrans(a, b[1..], c[1..]);
        }
      } else {
        PartTrans(a, b, c[1..]);
      }
    }
  }

  lemma {:induction false} PartMembers(a: seq<Rule>, b: seq<Rule>)
    requires Part(a, b)
    ensures forall x | x in a :: x in b
    decreases |b|
  {
    if a != [] {
      assert a == [a[0]] + a[1..];
      if a[0] == b[0] && Part(a[1..], b[1..]) {
        PartMembers(a[1..], b[1..]);
      } else {
        PartMembers(a, b[1..]);
      }
    }
  }

  lemma {:induction false} PartSorted(a: seq<Rule>, b: seq<Rule>)
    requires Part(a, b)
    ensures Sorted(b) ==> Sorted(a)
    ensures NoDup(b) ==> NoDup(a)
    decreases |b|
  {
    if a != [] {
      TailFacts(b);
      if a[0] == b[0] && Part(a[1..], b[1..]) {
        PartSorted(a[1..], b[1..]);
        PartMembers(a[1..], b[1..]);
        assert a == [a[0]] + a[1..];
        if Sorted(b) { ConsSorted(a[0], a[1..]); }
        if NoDup(b) { ConsNoDup(a[0], a[1..]); }
      } else {
        PartSorted(a, b[1..]);
      }
    }
  }

  lemma {:induction false} PartFirstAt(a: seq<Rule>, b: seq<Rule>, g: Rule)
    requires Part(a, b) && NoDup(b) && FirstAt(b, g) && g in a
    ensures FirstAt(a, g)
    decreases |b|
  {
    TailFacts(b);
    if a[0] == b[0] && Part(a[1..], b[1..]) {
      assert a == [a[0]] + a[1..];
      if b[0] != g {
        PartFirstAt(a[1..], b[1..], g);
      }
    } else {
      PartMembers(a, b[1..]);
      PartFirstAt(a, b[1..], g);
    }
  }

  /******* Priority blocks *******/

  datatype Block = Block(base: int, span: int)

  /** The priorities inside the blocks, except the skipped ones. */
  datatype Selection = Selection(blocks: seq<Block>, skip: set<int>) {
    predicate Has(p: int) {
      p !in skip && exists b | b in blocks :: b.base <= p < b.base + b.span
    }
  }

  function Inside(s: Selection, rs: seq<Rule>): seq<Rule> {
    if rs == [] then []
    else (if s.Has(rs[0].priority) then [rs[0]] else []) + Inside(s, rs[1..])
  }

  function Outside(s: Selection, rs: seq<Rule>): seq<Rule> {
    if rs == [] then []
    else (if s.Has(rs[0].priority) then [] else [rs[0]]) + Outside(s, rs[1..])
  }

  lemma {:induction false} SplitMembers(s: Selection, rs: seq<Rule>)
    ensures forall x :: x in Inside(s, rs) <==> x in rs && s.Has(x.priority)
    ensures forall x :: x in Outside(s, rs) <==> x in rs && !s.Has(x.priority)
  {
    if rs != [] {
      SplitMembers(s, rs[1..]);
      assert rs == [rs[0]] + rs[1..];
    }
  }

  lemma {:induction false} InsideSorted(s: Selection, rs: seq<Rule>)
    requires Sorted(rs)
    ensures Sorted(Inside(s, rs))
  {
    if rs != [] {
      InsideSorted(s, rs[1..]);
      SplitMembers(s, rs[1..]);
      var rest := Inside(s, rs[1..]);
      forall j | 0 <= j < |rest| ensures rs[0].priority <= rest[j].priority {
        assert rest[j] in rest;
      }
    }
  }

  lemma {:induction false} OutsideInsert(s: Selection, rs: seq<Rule>, r: Rule)
    requires s.Has(r.priority)
    ensures Outside(s, InsertRule(rs, r)) == Outside(s, rs)
  {
    if rs == [] || r.priority < rs[0].priority {
      assert ([r] + rs)[1..] == rs;
    } else {
      OutsideInsert(s, rs[1..], r);
      assert InsertRule(rs, r)[1..] == InsertRule(rs[1..], r);
    }
  }

  lemma {:induction false} OutsideRemove(s: Selection, rs: seq<Rule>, spec: Rule)
    requires s.Has(spec.priority)
    ensures Outside(s, RemoveRule(rs, spec)) == Outside(s, rs)
  {
    if rs != [] && !SpecMatches(spec, rs[0]) {
      OutsideRemove(s, rs[1..], spec);
      assert RemoveRule(rs, spec)[1..] == RemoveRule(rs[1..], spec);
    }
  }

  /** A sorted list is determined by its two parts. */
  lemma {:induction false} PartsDetermine(s: Selection, a: seq<Rule>, b: seq<Rule>)
    requires Sorted(a) && Sorted(b)
    requires Inside(s, a) == Inside(s, b) && Outside(s, a) == Outside(s, b)
    ensures a == b
    decreases |a|
  {
    SplitMembers(s, a);
    SplitMembers(s, b);
    if a != [] && b != [] {
      HeadsAgree(s, a, b);
      PartsDetermine(s, a[1..], b[1..]);
      assert a == [a[0]] + a[1..] && b == [b[0]] + b[1..];
    }
  }

  lemma PartHead(s: Selection, a: seq<Rule>)
    requires a != []
    ensures s.Has(a[0].priority) ==> Inside(s, a) == [a[0]] + Inside(s, a[1..]) && Outside(s, a) == Outside(s, a[1..])
    ensures !s.Has(a[0].priority) ==> Outside(s, a) == [a[0]] + Outside(s, a[1..]) && Inside(s, a) == Inside(s, a[1..])
  {
  }

  lemma HeadsAgree(s: Selection, a: seq<Rule>, b: seq<Rule>)
    requires Sorted(a) && Sorted(b) && a != [] && b != []
    requires Inside(s, a) == Inside(s, b) && Outside(s, a) == Outside(s, b)
    ensures a[0] == b[0]
    ensures Inside(s, a[1..]) == Inside(s, b[1..]) && Outside(s, a[1..]) == Outside(s, b[1..])
  {
    SplitMembers(s, a);
    SplitMembers(s, b);
    PartHead(s, a);
    PartHead(s, b);
    assert a[0] in a && b[0] in b;
    assert a[0] in b && b[0] in a;
    assert a[0].priority == b[0].priority;
    if s.Has(a[0].priority) {
      assert Inside(s, a)[0] == a[0] && Inside(s, b)[0] == b[0];
      assert Inside(s, a)[1..] == Inside(s, a[1..]) && Inside(s, b)[1..] == Inside(s, b[1..]);
    } else {
      assert Outside(s, a)[0] == a[0] && Outside(s, b)[0] == b[0];
      assert Outside(s, a)[1..] == Outside(s, a[1..]) && Outside(s, b)[1..] == Outside(s, b[1..]);
    }
  }

  ghost predicate StrictlySorted(rs: seq<Rule>) {
    forall i, j | 0 <= i < j < |rs| :: rs[i].priority < rs[j].priority
  }

  /** Two lists with one rule per priority and the same rules are the same list. */
  lemma {:induction false} StrictDetermine(a: seq<Rule>, b: seq<Rule>)
    requires StrictlySorted(a) && StrictlySorted(b)
    requires forall x :: x in a <==> x in b
    ensures a == b
    decreases |a|
  {
    assert b == [] || b[0] in b;
    if a != [] {
      assert a[0] in a;
      assert b != [];
      assert b[0] in b;
      assert a[0] == b[0] by {
        var i :| 0 <= i < |b| && b[i] == a[0];
        var j :| 0 <= j < |a| && a[j] == b[0];
      }
      forall x ensures x in a[1..] <==> x in b[1..] {
        if x in a[1..] { assert x in a && x != a[0]; }
        if x in b[1..] { assert x in b && x != b[0]; }
      }
      StrictDetermine(a[1..], b[1..]);
      assert a == [a[0]] + a[1..] && b == [b[0]] + b[1..];
    }
  }

  /******* Kernel state *******/

  datatype KernelState = KernelState(v4: seq<Rule>, v6: seq<Rule>, tables: Tables) {
    function Rules(f: Family): seq<Rule> {
      if f.V4? then v4 else v6
    }

    function WithRules(f: Family, rs: seq<Rule>): KernelState {
      if f.V4? then this.(v4 := rs) else this.(v6 := rs)
    }

    ghost function Route(p: Packet): Outcome {
      Eval(Rules(FamilyOf(p.dst)), tables, p)
    }
  }

  function ReplaceRoute(ts: Tables, r: Route): Tables {
    ts[IdOf(r) := TableOf(ts, IdOf(r))[KeyOf(r) := r]]
  }

  function DeleteRoute(ts: Tables, r: Route): Tables {
    ts[IdOf(r) := TableOf(ts, IdOf(r)) - {KeyOf(r)}]
  }

  function InstallAll(ts: Tables, rs: seq<Route>): Tables {
    if rs == [] then ts else ReplaceRoute(InstallAll(ts, rs[..|rs| - 1]), rs[|rs| - 1])
  }
}
