/** Carrying packet marks over to replies through the connection mark. */
module Connmark {
  import opened Netip
  import opened Policy
  import opened Kernel

  datatype Mark = Mark(value: bv32, mask: bv32)

  predicate Matches(m: Mark, packet: bv32) {
    MarkMatches(m.value, m.mask, packet)
  }

  predicate Overlap(a: Mark, b: Mark) {
    MarksOverlap(a.value, a.mask, b.value, b.mask)
  }

  ghost predicate Disjoint(ms: seq<Mark>) {
    forall i, j | 0 <= i < j < |ms| :: !Overlap(ms[i], ms[j])
  }

  /** Zero masks and overlapping selectors are errors; repeats are dropped. */
  method NormalizeMarks(marks: seq<Mark>) returns (r: Option<seq<Mark>>)
    ensures r.Some? <==>
              && (forall m | m in marks :: m.mask != 0)
              && (forall a, b | a in marks && b in marks && a != b :: !Overlap(a, b))
    ensures r.Some? ==> Disjoint(r.value) && forall m :: m in r.value <==> m in marks
  {
    hide Overlap;
    var out: seq<Mark> := [];
    for i := 0 to |marks|
      invariant forall m | m in marks[..i] :: m.mask != 0
      invariant forall m :: m in out <==> m in marks[..i]
      invariant forall j, k | 0 <= j < k < |out| :: out[j] != out[k]
    {
      assert marks[..i + 1] == marks[..i] + [marks[i]];
      if marks[i].mask == 0 {
        assert marks[i] in marks;
        return None;
      }
      if marks[i] !in out {
        out := out + [marks[i]];
      }
    }
    assert marks[..|marks|] == marks;
    for i := 0 to |out|
      invariant forall j, k | 0 <= j < i && j < k < |out| :: !Overlap(out[j], out[k])
    {
      for k := i + 1 to |out|
        invariant forall n | i < n < k :: !Overlap(out[i], out[n])
      {
        if Overlap(out[i], out[k]) {
          assert out[i] in marks && out[k] in marks;
          return None;
        }
      }
    }
    OverlapBothWays(out);
    return Some(out);
  }

  lemma OverlapBothWays(ms: seq<Mark>)
    requires Disjoint(ms)
    ensures forall a, b | a in ms && b in ms && a != b :: !Overlap(a, b)
  {
    forall a, b | a in ms && b in ms && a != b ensures !Overlap(a, b) {
      var i :| 0 <= i < |ms| && ms[i] == a;
      var j :| 0 <= j < |ms| && ms[j] == b;
      assert Overlap(a, b) == Overlap(b, a);
    }
  }

  /** Two disjoint selectors never match one mark, and the test for it is exact. */
  lemma DisjointNeverBoth(a: Mark, b: Mark)
    ensures !Overlap(a, b) <==> forall m: bv32 :: !(Matches(a, m) && Matches(b, m))
  {
    MarksOverlapExact(a.value, a.mask, b.value, b.mask);
    if Overlap(a, b) {
      var m: bv32 :| MarkMatches(a.value, a.mask, m) && MarkMatches(b.value, b.mask, m);
      assert Matches(a, m) && Matches(b, m);
    } else {
      forall m: bv32 ensures !(Matches(a, m) && Matches(b, m)) {
        assert !(MarkMatches(a.value, a.mask, m) && MarkMatches(b.value, b.mask, m));
      }
    }
  }

  /** The output chain: every rule whose selector matches the packet sets the connection mark. */
  function Save(ms: seq<Mark>, packet: bv32, ct: bv32): bv32 {
    if ms == [] then ct else Save(ms[1..], packet, if Matches(ms[0], packet) then ms[0].value else ct)
  }

  /** The prerouting chain: every rule whose selector matches the connection mark sets the packet's. */
  function Restore(ms: seq<Mark>, ct: bv32, packet: bv32): bv32 {
    if ms == [] then packet else Restore(ms[1..], ct, if Matches(ms[0], ct) then ms[0].value else packet)
  }

  /** The mark of the reply to a packet, on a connection marked `ct` before. */
  function Reply(ms: seq<Mark>, packet: bv32, ct: bv32): bv32 {
    Restore(ms, Save(ms, packet, ct), 0)
  }

  lemma ValueMatches(m: Mark)
    ensures Matches(m, m.value)
  {
  }

  lemma {:induction false} SaveUnmatched(ms: seq<Mark>, packet: bv32, ct: bv32)
    requires forall m | m in ms :: !Matches(m, packet)
    ensures Save(ms, packet, ct) == ct
  {
    hide Matches;
    if ms != [] {
      assert ms[0] in ms;
      SaveUnmatched(ms[1..], packet, ct);
    }
  }

  lemma {:induction false} RestoreUnmatched(ms: seq<Mark>, ct: bv32, packet: bv32)
    requires forall m | m in ms :: !Matches(m, ct)
    ensures Restore(ms, ct, packet) == packet
  {
    hide Matches;
    if ms != [] {
      assert ms[0] in ms;
      RestoreUnmatched(ms[1..], ct, packet);
    }
  }

  ghost predicate OnlyMatch(ms: seq<Mark>, m: Mark, packet: bv32) {
    m in ms && Matches(m, packet) && forall x | x in ms && Matches(x, packet) :: x == m
  }

  lemma {:induction false} SaveMatched(ms: seq<Mark>, m: Mark, packet: bv32, ct: bv32)
    requires OnlyMatch(ms, m, packet)
    ensures Save(ms, packet, ct) == m.value
  {
    hide Matches;
    assert ms == [ms[0]] + ms[1..];
    var next := if Matches(ms[0], packet) then ms[0].value else ct;
    if m in ms[1..] {
      SaveMatched(ms[1..], m, packet, next);
    } else {
      SaveUnmatched(ms[1..], packet, next);
    }
  }

  lemma {:induction false} RestoreMatched(ms: seq<Mark>, m: Mark, ct: bv32, packet: bv32)
    requires OnlyMatch(ms, m, ct)
    ensures Restore(ms, ct, packet) == m.value
  {
    hide Matches;
    assert ms == [ms[0]] + ms[1..];
    var next := if Matches(ms[0], ct) then ms[0].value else packet;
    if m in ms[1..] {
      RestoreMatched(ms[1..], m, ct, next);
    } else {
      RestoreUnmatched(ms[1..], ct, next);
    }
  }

  lemma MatchIsOnly(ms: seq<Mark>, m: Mark, packet: bv32)
    requires Disjoint(ms) && m in ms && Matches(m, packet)
    ensures OnlyMatch(ms, m, packet)
  {
    hide Matches, Overlap;
    OverlapBothWays(ms);
    forall x | x in ms && Matches(x, packet) ensures x == m {
      DisjointNeverBoth(m, x);
    }
  }

  /** A packet that some selector matches: its reply matches exactly the same selectors. */
  lemma MatchedReply(ms: seq<Mark>, m: Mark, packet: bv32, ct: bv32)
    requires Disjoint(ms) && m in ms && Matches(m, packet)
    ensures Reply(ms, packet, ct) == m.value
    ensures forall x | x in ms :: Matches(x, Reply(ms, packet, ct)) <==> Matches(x, packet)
  {
    hide Matches, Overlap;
    MatchIsOnly(ms, m, packet);
    SaveMatched(ms, m, packet, ct);
    ValueMatches(m);
    MatchIsOnly(ms, m, m.value);
    RestoreMatched(ms, m, m.value, 0);
  }

  /** Nothing would mark the reply: neither the connection's mark nor the mark 0 that
      replies start with. */
  ghost predicate Unmarking(ms: seq<Mark>, ct: bv32) {
    forall x | x in ms :: !Matches(x, ct) && !Matches(x, 0)
  }

  /** A packet that no selector matches: its reply matches no selector either, if and only
      if no selector matches the connection's mark or the mark 0. */
  lemma UnmatchedReply(ms: seq<Mark>, packet: bv32, ct: bv32)
    requires Disjoint(ms) && forall m | m in ms :: !Matches(m, packet)
    ensures (forall x | x in ms :: Matches(x, Reply(ms, packet, ct)) <==> Matches(x, packet)) <==> Unmarking(ms, ct)
  {
    hide Matches, Overlap;
    SaveUnmatched(ms, packet, ct);
    if exists m :: m in ms && Matches(m, ct) {
      var m :| m in ms && Matches(m, ct);
      MatchIsOnly(ms, m, ct);
      RestoreMatched(ms, m, ct, 0);
      ValueMatches(m);
    } else {
      RestoreUnmatched(ms, ct, 0);
    }
  }

  /** A selector that matches 0: the reply to an unmatched packet is matched. */
  lemma ZeroSelectorMarksReplies()
    ensures var ms := [Mark(0, 1)];
            Disjoint(ms) && !Matches(ms[0], 1) && Matches(ms[0], Reply(ms, 1, 0))
  {
    var ms := [Mark(0, 1)];
    SaveUnmatched(ms, 1, 0);
    MatchIsOnly(ms, ms[0], 0);
    RestoreMatched(ms, ms[0], 0, 0);
  }

  /** A connection whose earlier packet was marked: the reply to a later unmarked packet
      still carries the old mark. */
  lemma MarkedConnectionMarksReplies()
    ensures var ms := [Mark(1, 1)];
            Disjoint(ms) && !Matches(ms[0], 0) && !Matches(ms[0], 2) && Matches(ms[0], Reply(ms, 2, 1))
  {
    var ms := [Mark(1, 1)];
    SaveUnmatched(ms, 2, 1);
    MatchIsOnly(ms, ms[0], 1);
    RestoreMatched(ms, ms[0], 1, 0);
  }

  /******* The same routing rules *******/

  function ConfigMarks(c: Config): seq<Mark> {
    [Mark(c.appMark, c.appMask), Mark(c.userMark, c.userMask)]
  }

  lemma ConfigMarksDisjoint(c: Config)
    requires ScalarsOk(c)
    ensures Disjoint(ConfigMarks(c))
  {
    var ms := ConfigMarks(c);
    assert !Overlap(ms[0], ms[1]);
  }

  /** Every compiled rule selects by one of the two marks or not at all. */
  lemma RuleSelectors(c: Config, f: Family, r: Rule)
    requires r in CompileRules(c, f)
    ensures Mark(r.mark, r.mask) in ConfigMarks(c) || (r.mark == 0 && r.mask == 0)
  {
  }

  lemma {:induction false} EvalSameMarks(rs: seq<Rule>, ts: Tables, p: Packet, q: Packet)
    requires p.dst == q.dst
    requires forall r | r in rs :: MarkMatches(r.mark, r.mask, p.mark) <==> MarkMatches(r.mark, r.mask, q.mark)
    ensures Eval(rs, ts, p) == Eval(rs, ts, q)
  {
    hide MarkMatches;
    if rs != [] {
      assert rs[0] in rs;
      EvalSameMarks(rs[1..], ts, p, q);
    }
  }

  lemma NoMaskMatchesAll(m: bv32)
    ensures MarkMatches(0, 0, m)
  {
  }

  lemma SameSelectorsSameRules(c: Config, f: Family, ts: Tables, packet: bv32, reply: bv32, dst: Addr)
    requires forall x | x in ConfigMarks(c) :: Matches(x, reply) <==> Matches(x, packet)
    ensures Eval(CompileRules(c, f), ts, Packet(reply, dst)) == Eval(CompileRules(c, f), ts, Packet(packet, dst))
  {
    NoMaskMatchesAll(reply);
    NoMaskMatchesAll(packet);
    hide CompileRules, MarkMatches;
    forall r | r in CompileRules(c, f)
      ensures MarkMatches(r.mark, r.mask, reply) <==> MarkMatches(r.mark, r.mask, packet)
    {
      RuleSelectors(c, f, r);
      if Mark(r.mark, r.mask) in ConfigMarks(c) {
        assert Matches(Mark(r.mark, r.mask), reply) <==> Matches(Mark(r.mark, r.mask), packet);
      }
    }
    EvalSameMarks(CompileRules(c, f), ts, Packet(reply, dst), Packet(packet, dst));
  }

  /** The reply is decided by the compiled rules as the packet itself would be, for any
      destination and whatever mark the connection carried: for every marked packet, and
      for an unmarked one when nothing marks its reply. */
  lemma ReplyFollowsSameRules(c: Config, f: Family, ts: Tables, packet: bv32, ct: bv32, dst: Addr)
    requires Policy.Valid(c)
    requires (exists m :: m in ConfigMarks(c) && Matches(m, packet)) || Unmarking(ConfigMarks(c), ct)
    ensures Eval(CompileRules(c, f), ts, Packet(Reply(ConfigMarks(c), packet, ct), dst))
            == Eval(CompileRules(c, f), ts, Packet(packet, dst))
  {
    var ms := ConfigMarks(c);
    ConfigMarksDisjoint(c);
    hide CompileRules, Matches, Reply, Policy.Valid, ConfigMarks;
    if exists m :: m in ms && Matches(m, packet) {
      var m :| m in ms && Matches(m, packet);
      MatchedReply(ms, m, packet, ct);
    } else {
      UnmatchedReply(ms, packet, ct);
    }
    SameSelectorsSameRules(c, f, ts, packet, Reply(ms, packet, ct), dst);
  }
}
