/** Choosing upstream DNS servers from systemd-resolved's state, and routing questions
    to them by the longest matching domain. Strings are byte strings. */
module Resolved {
  import opened Netip
  import opened Order
  import opened Strings

  datatype Server = Server(addr: Addr, port: int)

  /******* Filtering and deduplication *******/

  predicate Excluded(a: Addr, exclude: seq<Addr>) {
    a.IsValid() && a in exclude
  }

  method AddrExcluded(a: Addr, exclude: seq<Addr>) returns (r: bool)
    ensures r <==> Excluded(a, exclude)
  {
    for i := 0 to |exclude|
      invariant forall j | 0 <= j < i :: !(exclude[j].IsValid() && a == exclude[j])
    {
      if exclude[i].IsValid() && a == exclude[i] {
        return true;
      }
    }
    return false;
  }

  function Allowed(servers: seq<Server>, exclude: seq<Addr>): seq<Server> {
    if servers == [] then []
    else
      Allowed(servers[..|servers| - 1], exclude)
      + if Excluded(servers[|servers| - 1].addr, exclude) then [] else [servers[|servers| - 1]]
  }

  lemma {:induction false} AllowedMembers(servers: seq<Server>, exclude: seq<Addr>)
    ensures forall s :: s in Allowed(servers, exclude) <==> s in servers && !Excluded(s.addr, exclude)
    ensures |Allowed(servers, exclude)| <= |servers|
  {
    if servers != [] {
      AllowedMembers(servers[..|servers| - 1], exclude);
      assert servers == servers[..|servers| - 1] + [servers[|servers| - 1]];
    }
  }

  /** The others keep their order and their number. */
  lemma {:induction false} AllowedOrder(servers: seq<Server>, exclude: seq<Addr>, n: nat)
    requires n <= |servers|
    ensures Allowed(servers[..n], exclude) <= Allowed(servers, exclude)
    ensures forall s: Server | !Excluded(s.addr, exclude) ::
              multiset(Allowed(servers, exclude))[s] == multiset(servers)[s]
  {
    if servers != [] {
      var init := servers[..|servers| - 1];
      assert servers == init + [servers[|servers| - 1]];
      if n < |servers| {
        assert init[..n] == servers[..n];
        AllowedOrder(init, exclude, n);
      } else {
        assert servers[..n] == servers;
        AllowedOrder(init, exclude, |init|);
      }
    }
  }

  /** Filtering in place: the result occupies the front of the same array, and reading
      never runs into what was already written. */
  method FilterAddr(a: array<Server>, exclude: seq<Addr>) returns (n: nat)
    modifies a
    ensures n <= a.Length && a[..n] == Allowed(old(a[..]), exclude)
  {
    ghost var was := a[..];
    if exclude == [] {
      AllowedAll(was, exclude);
      return a.Length;
    }
    n := 0;
    for i := 0 to a.Length
      invariant n <= i && a[..n] == Allowed(was[..i], exclude)
      invariant forall j | i <= j < a.Length :: a[j] == was[j]
    {
      assert was[..i + 1][..i] == was[..i];
      assert a[i] == was[i];
      var excluded := AddrExcluded(a[i].addr, exclude);
      if !excluded {
        a[n] := a[i];
        n := n + 1;
      }
    }
    assert was[..a.Length] == was;
  }

  lemma {:induction false} AllowedAll(servers: seq<Server>, exclude: seq<Addr>)
    requires exclude == []
    ensures Allowed(servers, exclude) == servers
  {
    if servers != [] {
      AllowedAll(servers[..|servers| - 1], exclude);
      assert servers == servers[..|servers| - 1] + [servers[|servers| - 1]];
    }
  }

  predicate HasAddr(s: Server) {
    s.addr.IsValid()
  }

  function ValidServers(servers: seq<Server>): seq<Server> {
    Filter(HasAddr, servers)
  }

  function UniqueServers(servers: seq<Server>): seq<Server> {
    Dedupe(ValidServers(servers))
  }

  lemma {:induction false} ValidMembers(servers: seq<Server>)
    ensures forall s :: s in ValidServers(servers) <==> s in servers && s.addr.IsValid()
  {
    if servers != [] {
      ValidMembers(servers[1..]);
      assert servers == [servers[0]] + servers[1..];
    }
  }

  lemma UniqueMembers(servers: seq<Server>)
    ensures forall s :: s in UniqueServers(servers) <==> s in servers && s.addr.IsValid()
    ensures Distinct(UniqueServers(servers))
  {
    DedupeFacts(ValidServers(servers));
    ValidMembers(servers);
    forall s ensures s in UniqueServers(servers) <==> s in ValidServers(servers) {
      assert s in multiset(UniqueServers(servers)) <==> s in multiset(ValidServers(servers));
    }
  }

  /** The servers stay in the order in which they first appear. */
  lemma UniqueOrder(servers: seq<Server>, n: nat)
    requires n <= |servers|
    ensures UniqueServers(servers[..n]) <= UniqueServers(servers)
  {
    FilterOrder(HasAddr, servers, n);
    var part, whole := ValidServers(servers[..n]), ValidServers(servers);
    assert whole[..|part|] == part;
    DedupeOrder(whole, |part|);
  }

  method DedupeServers(servers: seq<Server>) returns (out: seq<Server>)
    ensures out == UniqueServers(servers)
    ensures Distinct(out) && forall s :: s in out <==> s in servers && s.addr.IsValid()
  {
    UniqueMembers(servers);
    out := [];
    var seen: set<Server> := {};
    for i := 0 to |servers|
      invariant out == Dedupe(ValidServers(servers[..i]))
      invariant forall s :: s in seen <==> s in out
    {
      var s := servers[i];
      assert servers[..i + 1] == servers[..i] + [s];
      FilterSnoc(HasAddr, servers[..i], s);
      DedupeSnoc(ValidServers(servers[..i]), s);
      assert !HasAddr(s) ==> ValidServers(servers[..i + 1]) == ValidServers(servers[..i]);
      if !s.addr.IsValid() || s in seen {
        continue;
      }
      seen := seen + {s};
      out := out + [s];
    }
    assert servers[..|servers|] == servers;
  }

  /******* Domains *******/

  predicate IsSpace(c: char) {
    c == ' ' || '\t' <= c <= '\r'
  }

  function Lower(c: char): char {
    if 'A' <= c <= 'Z' then (c as int + 32) as char else c
  }

  function TrimLeft(s: string): string {
    if s != [] && IsSpace(s[0]) then TrimLeft(s[1..]) else s
  }

  function TrimRight(s: string): string {
    if s != [] && IsSpace(s[|s| - 1]) then TrimRight(s[..|s| - 1]) else s
  }

  function Trim(s: string): string {
    TrimRight(TrimLeft(s))
  }

  /** Lower case and ending in a dot; a final dot is not doubled. */
  function Folded(d: string): (r: string)
    requires d != "" && d != "."
    ensures |r| == (if d[|d| - 1] == '.' then |d| else |d| + 1) && r[|r| - 1] == '.'
    ensures forall i | 0 <= i < |r| - 1 :: r[i] == Lower(d[i])
  {
    var lower := seq(|d|, i requires 0 <= i < |d| => Lower(d[i]));
    (if lower[|lower| - 1] == '.' then lower[..|lower| - 1] else lower) + "."
  }

  function NormalizeDomain(domain: string): (r: string)
    ensures r != "" && r[|r| - 1] == '.'
  {
    var d := Trim(if domain != "" && domain[0] == '~' then domain[1..] else domain);
    if d == "" || d == "." then "." else Folded(d)
  }

  lemma {:induction false} TrimLeftFacts(s: string)
    ensures |TrimLeft(s)| <= |s| && (TrimLeft(s) == [] || !IsSpace(TrimLeft(s)[0]))
    ensures s != [] && s[|s| - 1] == '.' ==> TrimLeft(s) != [] && TrimLeft(s)[|TrimLeft(s)| - 1] == '.'
  {
    if s != [] && IsSpace(s[0]) {
      TrimLeftFacts(s[1..]);
    }
  }

  lemma {:induction false} TrimRightFacts(s: string)
    ensures |TrimRight(s)| <= |s| && (TrimRight(s) == [] || TrimRight(s)[0] == s[0])
    ensures s != [] && s[|s| - 1] == '.' ==> TrimRight(s) == s
  {
    if s != [] && IsSpace(s[|s| - 1]) {
      TrimRightFacts(s[..|s| - 1]);
    }
  }

  /** Trimming leaves no space in front and keeps a final dot. */
  lemma TrimFacts(s: string)
    ensures |Trim(s)| <= |s| && (Trim(s) == [] || !IsSpace(Trim(s)[0]))
    ensures s != [] && s[|s| - 1] == '.' ==> Trim(s) != [] && Trim(s)[|Trim(s)| - 1] == '.'
  {
    hide TrimLeft, TrimRight;
    TrimLeftFacts(s);
    TrimRightFacts(TrimLeft(s));
  }

  lemma NoUpperCase(domain: string)
    ensures forall i | 0 <= i < |NormalizeDomain(domain)| :: !('A' <= NormalizeDomain(domain)[i] <= 'Z')
  {
    hide Trim, Folded;
  }

  /** No upper-case letter is left, and normalising again changes nothing unless a second
      routing mark `~` is in front. */
  lemma NormalizedDomain(domain: string)
    ensures forall i | 0 <= i < |NormalizeDomain(domain)| :: !('A' <= NormalizeDomain(domain)[i] <= 'Z')
    ensures NormalizeDomain(NormalizeDomain(domain)) == NormalizeDomain(domain) <==> NormalizeDomain(domain)[0] != '~'
  {
    NoUpperCase(domain);
    TrimFacts(if domain != "" && domain[0] == '~' then domain[1..] else domain);
    hide Trim, Folded;
    var r := NormalizeDomain(domain);
    assert !IsSpace(r[0]);
    hide NormalizeDomain;
    if r[0] == '~' {
      MarkedAgain(r);
    } else {
      PlainAgain(r);
    }
  }

  /** A lower-case domain without spaces or mark in front that ends in a dot is left as it is. */
  lemma PlainAgain(r: string)
    requires r != "" && r[|r| - 1] == '.' && r[0] != '~' && !IsSpace(r[0])
    requires forall i | 0 <= i < |r| :: !('A' <= r[i] <= 'Z')
    ensures NormalizeDomain(r) == r
  {
    TrimRightFacts(r);
    assert Trim(r) == r;
    hide Trim, TrimRight, Folded;
    if r != "." {
      assert Folded(r) == r;
    }
  }

  lemma MarkedAgain(r: string)
    requires r != "" && r[|r| - 1] == '.' && r[0] == '~'
    ensures NormalizeDomain(r) != r
  {
    TrimFacts(r[1..]);
    hide Trim, Folded;
    assert |NormalizeDomain(r)| < |r|;
  }

  function LowerAll(s: string): string {
    seq(|s|, i requires 0 <= i < |s| => Lower(s[i]))
  }

  lemma LowerSpace(c: char)
    ensures IsSpace(Lower(c)) <==> IsSpace(c)
    ensures Lower(Lower(c)) == Lower(c) && (Lower(c) == '.' <==> c == '.') && (Lower(c) == '~' <==> c == '~')
  {
  }

  lemma {:induction false} TrimLeftLower(s: string)
    ensures TrimLeft(LowerAll(s)) == LowerAll(TrimLeft(s))
  {
    if s != [] {
      LowerSpace(s[0]);
      if IsSpace(s[0]) {
        TrimLeftLower(s[1..]);
        assert LowerAll(s)[1..] == LowerAll(s[1..]);
      }
    }
  }

  lemma {:induction false} TrimRightLower(s: string)
    ensures TrimRight(LowerAll(s)) == LowerAll(TrimRight(s))
  {
    if s != [] {
      LowerSpace(s[|s| - 1]);
      if IsSpace(s[|s| - 1]) {
        TrimRightLower(s[..|s| - 1]);
        assert LowerAll(s)[..|s| - 1] == LowerAll(s[..|s| - 1]);
      }
    }
  }

  lemma {:induction false} TrimLeftSpace(s: string)
    ensures TrimLeft(s + " ") == if TrimLeft(s) == [] then [] else TrimLeft(s) + " "
  {
    if s == [] {
      assert (s + " ")[1..] == [];
    } else {
      assert (s + " ")[1..] == s[1..] + " ";
      if IsSpace(s[0]) {
        TrimLeftSpace(s[1..]);
      }
    }
  }

  lemma FoldedLower(d: string)
    requires d != "" && d != "."
    ensures LowerAll(d) != "" && LowerAll(d) != "." && Folded(LowerAll(d)) == Folded(d)
  {
    forall i | 0 <= i < |d| ensures Lower(LowerAll(d)[i]) == Lower(d[i]) && (LowerAll(d)[i] == '.' <==> d[i] == '.') {
      LowerSpace(d[i]);
    }
    assert LowerAll(d)[0] == '.' <==> d[0] == '.';
    var x, y := Folded(LowerAll(d)), Folded(d);
    hide Folded;
    assert |x| == |y| && forall i | 0 <= i < |x| :: x[i] == y[i];
  }

  lemma TrimSpaces(d: string)
    ensures Trim(" " + d) == Trim(d) && Trim(d + " ") == Trim(d)
  {
    assert (" " + d)[1..] == d;
    assert TrimLeft(" " + d) == TrimLeft(d);
    TrimLeftSpace(d);
    var left := TrimLeft(d);
    hide TrimLeft;
    if left != [] {
      assert (left + " ")[..|left|] == left;
      assert TrimRight(left + " ") == TrimRight(left);
    }
  }

  lemma TrimLower(d: string)
    ensures Trim(LowerAll(d)) == LowerAll(Trim(d))
  {
    hide TrimLeft, TrimRight, LowerAll;
    TrimLeftLower(d);
    TrimRightLower(TrimLeft(d));
  }

  /** What normalising makes of a text without a mark. */
  lemma UnmarkedDomain(d: string)
    requires d == "" || d[0] != '~'
    ensures NormalizeDomain(d) == if Trim(d) == "" || Trim(d) == "." then "." else Folded(Trim(d))
    ensures NormalizeDomain("~" + d) == NormalizeDomain(d)
  {
    hide Trim, Folded;
    assert ("~" + d)[1..] == d;
  }

  /** Domains that mean the same normalise alike: case, one `~` in front and spaces around
      do not matter. */
  lemma SameDomain(d: string)
    requires d == "" || d[0] != '~'
    ensures NormalizeDomain("~" + d) == NormalizeDomain(d)
    ensures NormalizeDomain(" " + d) == NormalizeDomain(d)
    ensures NormalizeDomain(d + " ") == NormalizeDomain(d)
    ensures NormalizeDomain(LowerAll(d)) == NormalizeDomain(d)
  {
    if d != "" {
      LowerSpace(d[0]);
      assert (d + " ")[0] == d[0] && LowerAll(d)[0] == Lower(d[0]);
    }
    TrimSpaces(d);
    TrimLower(d);
    hide Trim, Folded, NormalizeDomain;
    UnmarkedDomain(d);
    UnmarkedDomain(" " + d);
    UnmarkedDomain(d + " ");
    UnmarkedDomain(LowerAll(d));
    if Trim(d) != "" && Trim(d) != "." {
      FoldedLower(Trim(d));
    }
  }

  /** The dot at the end may be left out. */
  lemma DotAtEnd(d: string)
    requires d != "" && d[0] != '~' && !IsSpace(d[0]) && !IsSpace(d[|d| - 1]) && d[|d| - 1] != '.'
    ensures NormalizeDomain(d + ".") == NormalizeDomain(d)
  {
    var e := d + ".";
    assert e[0] == d[0] && e[|e| - 1] == '.';
    assert Trim(d) == d && Trim(e) == e by {
      TrimRightFacts(e);
    }
    hide Trim, TrimRight;
    var x, y := Folded(e), Folded(d);
    assert |x| == |y| && forall i | 0 <= i < |x| - 1 :: x[i] == y[i];
    hide Folded;
    assert x == y;
  }

  function Normalized(domains: seq<string>): seq<string> {
    seq(|domains|, i requires 0 <= i < |domains| => NormalizeDomain(domains[i]))
  }

  predicate EndsWith(s: string, suffix: string) {
    |suffix| <= |s| && s[|s| - |suffix|..] == suffix
  }

  predicate NameMatches(name: string, domain: string) {
    domain == "." || name == domain || EndsWith(name, "." + domain)
  }

  /******* Matching by labels *******/

  /** Each label with the dot behind it. */
  function Dotted(labels: seq<string>): string {
    if labels == [] then "" else labels[0] + "." + Dotted(labels[1..])
  }

  /** The labels of a name that ends in a dot. */
  function Labels(name: string): seq<string> {
    if '.' !in name then [] else [UpToDot(name)] + Labels(name[|UpToDot(name)| + 1..])
  }

  function UpToDot(name: string): (l: string)
    requires '.' in name
    ensures |l| < |name| && name[..|l|] == l && name[|l|] == '.' && '.' !in l
  {
    if name[0] == '.' then "" else
      assert name == [name[0]] + name[1..];
      [name[0]] + UpToDot(name[1..])
  }

  predicate EndsInDot(s: string) {
    s != "" && s[|s| - 1] == '.'
  }

  /** A name is its labels. */
  lemma {:induction false} LabelsOf(name: string)
    requires name == "" || EndsInDot(name)
    ensures Dotted(Labels(name)) == name
    decreases |name|
  {
    hide Labels, UpToDot, Dotted;
    if name == "" {
      NoLabels();
    } else {
      assert name[|name| - 1] in name;
      var l := UpToDot(name);
      var rest := name[|l| + 1..];
      LabelsCons(name);
      LabelsOf(rest);
      DottedCons(l, Labels(rest));
      assert name == l + "." + rest;
    }
  }

  lemma NoLabels()
    ensures Labels("") == [] && Dotted([]) == ""
  {
  }

  lemma LabelsCons(name: string)
    requires '.' in name
    ensures Labels(name) == [UpToDot(name)] + Labels(name[|UpToDot(name)| + 1..])
  {
    hide UpToDot;
  }

  lemma DottedCons(l: string, ls: seq<string>)
    ensures Dotted([l] + ls) == l + "." + Dotted(ls)
  {
    assert ([l] + ls)[1..] == ls;
  }

  lemma {:induction false} LabelsPlain(name: string)
    ensures forall l | l in Labels(name) :: '.' !in l
    decreases |name|
  {
    if '.' in name {
      LabelsPlain(name[|UpToDot(name)| + 1..]);
      hide UpToDot;
    }
  }

  lemma {:induction false} DottedConcat(a: seq<string>, b: seq<string>)
    ensures Dotted(a + b) == Dotted(a) + Dotted(b)
  {
    if a == [] {
      assert a + b == b;
    } else {
      DottedConcat(a[1..], b);
      assert (a + b)[1..] == a[1..] + b;
    }
  }

  lemma {:induction false} DottedEnds(labels: seq<string>)
    ensures labels != [] ==> EndsInDot(Dotted(labels))
  {
    if labels != [] {
      DottedEnds(labels[1..]);
    }
  }

  /** The labels of a name that ends in a dot, put in front of the labels of another. */
  lemma {:induction false} LabelsConcat(a: string, b: string)
    requires a == "" || EndsInDot(a)
    ensures Labels(a + b) == Labels(a) + Labels(b)
    decreases |a|
  {
    hide Labels, UpToDot;
    if a == "" {
      NoLabels();
      assert a + b == b;
    } else {
      assert a[|a| - 1] in a;
      FirstLabel(a, b);
      var n := |UpToDot(a)| + 1;
      LabelsCons(a);
      LabelsCons(a + b);
      assert (a + b)[n..] == a[n..] + b;
      LabelsConcat(a[n..], b);
    }
  }

  lemma {:induction false} FirstLabel(a: string, b: string)
    requires '.' in a
    ensures '.' in a + b && UpToDot(a + b) == UpToDot(a)
  {
    assert '.' in a + b;
    if a[0] != '.' {
      assert a == [a[0]] + a[1..] && (a + b)[1..] == a[1..] + b;
      FirstLabel(a[1..], b);
    }
  }

  lemma SuffixHasLabels(name: string, domain: string)
    requires EndsInDot(domain) && (name == domain || EndsWith(name, "." + domain))
    ensures exists front: seq<string> :: Labels(name) == front + Labels(domain)
  {
    hide Labels;
    if name == domain {
      assert Labels(name) == [] + Labels(domain);
    } else {
      var n := |name| - |domain|;
      var front := name[..n];
      assert name[n - 1..] == "." + domain;
      assert name[n - 1] == name[n - 1..][0] && name[n..] == name[n - 1..][1..];
      assert front[n - 1] == name[n - 1] && name == front + domain;
      LabelsConcat(front, domain);
    }
  }

  lemma LabelsMakeSuffix(name: string, domain: string, front: seq<string>)
    requires EndsInDot(name) && EndsInDot(domain) && Labels(name) == front + Labels(domain)
    ensures name == domain || EndsWith(name, "." + domain)
  {
    hide Labels, Dotted;
    LabelsOf(name);
    LabelsOf(domain);
    DottedConcat(front, Labels(domain));
    DottedEnds(front);
    var text := Dotted(front);
    assert name == text + domain;
    if front == [] {
      NoLabels();
    } else {
      assert name[|text| - 1..] == "." + domain;
    }
  }

  /** A domain matches a name if and only if it is the root, or its labels are the last
      labels of the name. */
  lemma NameMatchesByLabels(name: string, domain: string)
    requires EndsInDot(name) && EndsInDot(domain)
    ensures NameMatches(name, domain) <==>
              domain == "." || exists front: seq<string> :: Labels(name) == front + Labels(domain)
  {
    hide Labels, EndsWith;
    if name == domain || EndsWith(name, "." + domain) {
      SuffixHasLabels(name, domain);
    }
    forall front: seq<string> | Labels(name) == front + Labels(domain) ensures NameMatches(name, domain) {
      LabelsMakeSuffix(name, domain, front);
    }
  }

  function DomainLength(domain: string): nat {
    if domain == "." then 0 else |domain|
  }

  /** How specific a domain is: the number of its labels, none for the root. */
  function Depth(domain: string): nat {
    if domain == "." then 0 else |Labels(domain)|
  }

  lemma LabelsNotEmpty(domain: string)
    requires EndsInDot(domain)
    ensures Labels(domain) != []
  {
    assert domain[|domain| - 1] in domain;
  }

  /** Of two ends of one list the shorter one ends the longer one. */
  lemma EndOfEnd(a: seq<string>, x: seq<string>, b: seq<string>, y: seq<string>)
    requires a + x == b + y && |x| <= |y|
    ensures y == y[..|y| - |x|] + x
  {
    var n := |y| - |x|;
    assert |a| == |b| + n;
    assert y == (b + y)[|b|..] && x == (a + x)[|a|..];
    assert y[n..] == (b + y)[|b| + n..];
  }

  /** A domain whose labels end another's is shorter, unless they are the same. */
  lemma FewerLabelsShorter(d: string, e: string, middle: seq<string>)
    requires EndsInDot(d) && EndsInDot(e) && Labels(e) == middle + Labels(d)
    ensures |d| <= |e| && (middle != [] ==> |d| < |e|)
  {
    hide Labels, Dotted;
    LabelsOf(d);
    LabelsOf(e);
    DottedConcat(middle, Labels(d));
    DottedEnds(middle);
  }

  /** Among the domains that match a name, longer means more labels. */
  lemma LongestIsDeepest(name: string, d: string, e: string)
    requires EndsInDot(name) && EndsInDot(d) && EndsInDot(e) && NameMatches(name, d) && NameMatches(name, e)
    ensures DomainLength(d) <= DomainLength(e) <==> Depth(d) <= Depth(e)
  {
    NameMatchesByLabels(name, d);
    NameMatchesByLabels(name, e);
    LabelsNotEmpty(d);
    LabelsNotEmpty(e);
    hide Labels, NameMatches;
    if d != "." && e != "." {
      var a: seq<string> :| Labels(name) == a + Labels(d);
      var b: seq<string> :| Labels(name) == b + Labels(e);
      if |Labels(d)| <= |Labels(e)| {
        EndOfEnd(a, Labels(d), b, Labels(e));
        FewerLabelsShorter(d, e, Labels(e)[..|Labels(e)| - |Labels(d)|]);
      } else {
        EndOfEnd(b, Labels(e), a, Labels(d));
        FewerLabelsShorter(e, d, Labels(d)[..|Labels(d)| - |Labels(e)|]);
      }
    }
  }

  /** Longer domains first, otherwise in order of appearance. */
  predicate LongerFirst(a: string, b: string) {
    DomainLength(a) >= DomainLength(b)
  }

  predicate NonBlank(s: string) {
    s != ""
  }

  function UniqueDomains(values: seq<string>): seq<string> {
    Sort(LongerFirst, Dedupe(Filter(NonBlank, values)))
  }

  lemma {:induction false} NonEmptyMembers(values: seq<string>)
    ensures forall s :: s in Filter(NonBlank, values) <==> s in values && s != ""
  {
    if values != [] {
      NonEmptyMembers(values[1..]);
      assert values == [values[0]] + values[1..];
    }
  }

  lemma UniqueDomainsMembers(values: seq<string>)
    ensures forall s :: s in UniqueDomains(values) <==> s in values && s != ""
    ensures Distinct(UniqueDomains(values)) && Order.Sorted(LongerFirst, UniqueDomains(values))
  {
    var nonEmpty := Filter(NonBlank, values);
    NonEmptyMembers(values);
    DedupeFacts(nonEmpty);
    assert TotalPreorder(LongerFirst);
    SortSorts(LongerFirst, Dedupe(nonEmpty));
    SortDistinct(LongerFirst, Dedupe(nonEmpty));
    SortPermutes(LongerFirst, Dedupe(nonEmpty));
    forall s ensures s in UniqueDomains(values) <==> s in nonEmpty {
      assert s in multiset(UniqueDomains(values)) <==> s in multiset(Dedupe(nonEmpty));
      assert s in multiset(nonEmpty) <==> s in multiset(Dedupe(nonEmpty));
    }
  }

  method DedupeStrings(values: seq<string>) returns (out: seq<string>)
    ensures out == UniqueDomains(values)
    ensures Distinct(out) && forall s :: s in out <==> s in values && s != ""
    ensures forall i, j | 0 <= i < j < |out| :: DomainLength(out[j]) <= DomainLength(out[i])
  {
    out := [];
    var seen: set<string> := {};
    for i := 0 to |values|
      invariant out == Dedupe(Filter(NonBlank, values[..i]))
      invariant forall s :: s in seen <==> s in out
    {
      assert values[..i + 1] == values[..i] + [values[i]];
      FilterSnoc(NonBlank, values[..i], values[i]);
      DedupeSnoc(Filter(NonBlank, values[..i]), values[i]);
      assert !NonBlank(values[i]) ==> Filter(NonBlank, values[..i + 1]) == Filter(NonBlank, values[..i]);
      if values[i] == "" || values[i] in seen {
        continue;
      }
      seen := seen + {values[i]};
      out := out + [values[i]];
    }
    assert values[..|values|] == values;
    out := Sort(LongerFirst, out);
    DomainsLongerFirst(values);
    hide Sort, Dedupe, Filter;
  }

  lemma DomainsLongerFirst(values: seq<string>)
    ensures var out := UniqueDomains(values);
            && Distinct(out) && (forall s :: s in out <==> s in values && s != "")
            && forall i, j | 0 <= i < j < |out| :: DomainLength(out[j]) <= DomainLength(out[i])
  {
    hide UniqueDomains;
    UniqueDomainsMembers(values);
  }

  /******* Routing a question *******/

  datatype Route = Route(name: string, domains: seq<string>, urls: seq<string>)

  /** How well a route fits: the length of its longest matching domain, -1 if none. */
  ghost predicate IsScore(r: Route, name: string, score: int) {
    && (score == -1 || exists d :: d in r.domains && NameMatches(name, d) && DomainLength(d) == score)
    && (forall d | d in r.domains && NameMatches(name, d) :: DomainLength(d) <= score)
    && -1 <= score
  }

  /** The first route that holds the longest matching domain; no name when nothing matches. */
  ghost predicate IsAnswer(routes: seq<Route>, name: string, answer: string) {
    || (answer == "" && forall r, d | r in routes && d in r.domains :: !NameMatches(name, d))
    || (exists i, score :: Wins(routes, name, i, score) && answer == routes[i].name)
  }

  ghost predicate Wins(routes: seq<Route>, name: string, i: int, score: int) {
    && 0 <= i < |routes| && 0 <= score && IsScore(routes[i], name, score)
    && (forall j, other | 0 <= j < i && IsScore(routes[j], name, other) :: other < score)
    && (forall j, other | i < j < |routes| && IsScore(routes[j], name, other) :: other <= score)
  }

  lemma ScoreUnique(r: Route, name: string, a: int, b: int)
    requires IsScore(r, name, a) && IsScore(r, name, b)
    ensures a == b
  {
  }

  /** Domains in another order or repeated change nothing. */
  lemma ScoreIgnoresOrder(r: Route, s: Route, name: string, score: int)
    requires (forall d :: d in r.domains <==> d in s.domains)
    ensures IsScore(r, name, score) <==> IsScore(s, name, score)
  {
  }

  ghost predicate SameUpToOrder(a: seq<Route>, b: seq<Route>) {
    |a| == |b| && forall i | 0 <= i < |a| ::
      a[i].name == b[i].name && forall d :: d in a[i].domains <==> d in b[i].domains
  }

  /** Per-route sorting and deduplication do not affect where a question goes. */
  lemma AnswerIgnoresOrder(a: seq<Route>, b: seq<Route>, name: string, answer: string)
    requires SameUpToOrder(a, b) && IsAnswer(a, name, answer)
    ensures IsAnswer(b, name, answer)
  {
    hide NameMatches;
    forall i, score | 0 <= i < |a| ensures IsScore(a[i], name, score) <==> IsScore(b[i], name, score) {
      ScoreIgnoresOrder(a[i], b[i], name, score);
    }
    if exists i, score :: Wins(a, name, i, score) && answer == a[i].name {
      var i, score :| Wins(a, name, i, score) && answer == a[i].name;
      assert Wins(b, name, i, score);
    } else {
      forall r, d | r in b && d in r.domains ensures !NameMatches(name, d) {
        var i :| 0 <= i < |b| && b[i] == r;
        assert a[i] in a && d in a[i].domains;
      }
    }
  }

  lemma AnswerUnique(routes: seq<Route>, name: string, a: string, b: string)
    requires IsAnswer(routes, name, a) && IsAnswer(routes, name, b)
    ensures a == b
  {
    hide NameMatches;
    forall i, score | Wins(routes, name, i, score)
      ensures exists r, d :: r in routes && d in r.domains && NameMatches(name, d)
    {
      WinnerMatches(routes, name, i, score);
    }
    if exists i, score :: Wins(routes, name, i, score) && a == routes[i].name {
      var i, s :| Wins(routes, name, i, s) && a == routes[i].name;
      var j, t :| Wins(routes, name, j, t) && b == routes[j].name;
      assert i == j;
    }
  }

  lemma WinnerMatches(routes: seq<Route>, name: string, i: int, score: int)
    requires Wins(routes, name, i, score)
    ensures exists r, d :: r in routes && d in r.domains && NameMatches(name, d)
  {
    var d :| d in routes[i].domains && NameMatches(name, d) && DomainLength(d) == score;
    assert routes[i] in routes;
  }

  /** Where the scan stands after some routes: nothing matched yet, or the best so far. */
  ghost predicate BestSoFar(routes: seq<Route>, name: string, bestName: string, best: int) {
    || (best == -1 && bestName == "" && forall r, d | r in routes && d in r.domains :: !NameMatches(name, d))
    || (exists i :: Wins(routes, name, i, best) && bestName == routes[i].name)
  }

  /** Scanning one route's domains on top of a best length. */
  ghost predicate Scanned(domains: seq<string>, name: string, before: int, best: int) {
    && before <= best && -1 <= before
    && (forall d | d in domains && NameMatches(name, d) :: DomainLength(d) <= best)
    && (best > before ==> exists d :: d in domains && NameMatches(name, d) && DomainLength(d) == best)
  }

  method RouteQuestion(routes: seq<Route>, name: string) returns (answer: string)
    ensures IsAnswer(routes, name, answer)
  {
    answer := "";
    var best: int := -1;
    for i := 0 to |routes|
      invariant BestSoFar(routes[..i], name, answer, best) && -1 <= best
    {
      hide NameMatches, Wins, IsScore;
      var route := routes[i];
      ghost var before, beforeName := best, answer;
      for k := 0 to |route.domains|
        invariant Scanned(route.domains[..k], name, before, best)
        invariant answer == if best > before then route.name else beforeName
      {
        var d := route.domains[k];
        assert route.domains[..k + 1] == route.domains[..k] + [d];
        if NameMatches(name, d) {
          var length := DomainLength(d);
          if length > best {
            answer, best := route.name, length;
          }
        }
      }
      assert route.domains[..|route.domains|] == route.domains;
      ScanOne(routes[..i], route, name, beforeName, before, best);
      assert routes[..i + 1] == routes[..i] + [route];
    }
    assert routes[..|routes|] == routes;
  }

  lemma ScanOne(done: seq<Route>, r: Route, name: string, bestName: string, before: int, best: int)
    requires BestSoFar(done, name, bestName, before) && Scanned(r.domains, name, before, best)
    ensures BestSoFar(done + [r], name, if best > before then r.name else bestName, best)
  {
    hide NameMatches;
    var more := done + [r];
    if best > before {
      assert IsScore(r, name, best);
      forall j, other | 0 <= j < |done| && IsScore(more[j], name, other) ensures other < best {
        ScoreBelow(done, name, bestName, before, j, other);
      }
      assert Wins(more, name, |done|, best);
    } else if exists i :: Wins(done, name, i, before) && bestName == done[i].name {
      var i :| Wins(done, name, i, before) && bestName == done[i].name;
      forall j, other | i < j < |more| && IsScore(more[j], name, other) ensures other <= before {
      }
      assert Wins(more, name, i, before);
    } else {
      forall q, d | q in more && d in q.domains ensures !NameMatches(name, d) {
        if q !in done {
          assert DomainLength(d) >= 0;
        }
      }
    }
  }

  lemma ScoreBelow(done: seq<Route>, name: string, bestName: string, best: int, j: int, other: int)
    requires BestSoFar(done, name, bestName, best) && 0 <= j < |done| && IsScore(done[j], name, other)
    ensures other <= best
  {
    hide NameMatches;
    if best == -1 && bestName == "" && forall r, d | r in done && d in r.domains :: !NameMatches(name, d) {
      assert done[j] in done;
    } else {
      var i :| Wins(done, name, i, best) && bestName == done[i].name;
      if j == i {
        ScoreUnique(done[i], name, other, best);
      }
    }
  }
}
