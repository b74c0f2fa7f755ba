/** The text signature of an upstream configuration, and skipping the rebuild when it
    did not change. */
module Signatures {
  import opened Netip
  import opened Resolved
  import opened Upstreams

  /******* Text *******/

  function Digit(d: nat): char
    requires d < 10
  {
    "0123456789"[d]
  }

  function Digits(n: nat): string {
    if n < 10 then [Digit(n)] else Digits(n / 10) + [Digit(n % 10)]
  }

  function RouteName(i: nat): string {
    "default-" + Digits(i)
  }

  /** Entries separated by commas. */
  function Join(ss: seq<string>): string {
    if |ss| == 0 then "" else if |ss| == 1 then ss[0] else ss[0] + "," + Join(ss[1..])
  }

  function Signature(r: Route): string {
    r.name + "|" + Join(r.domains) + "|" + Join(r.urls)
  }

  function SignaturesOf(rs: seq<Route>): seq<string> {
    seq(|rs|, i requires 0 <= i < |rs| => Signature(rs[i]))
  }

  /** The rendering of a server as a URL is a parameter. */
  function Urls(servers: seq<Server>, url: Server -> string): seq<string> {
    seq(|servers|, i requires 0 <= i < |servers| => url(servers[i]))
  }

  function RoutesOf(inputs: seq<Input>, url: Server -> string): seq<Route> {
    seq(|inputs|, i requires 0 <= i < |inputs| => Route(RouteName(i), inputs[i].domains, Urls(inputs[i].servers, url)))
  }

  predicate Clean(s: string) {
    s != "" && ',' !in s && '|' !in s
  }

  predicate CleanList(ss: seq<string>) {
    ss != [] && forall s | s in ss :: Clean(s)
  }

  predicate CleanRoute(r: Route) {
    '|' !in r.name && CleanList(r.domains) && CleanList(r.urls)
  }

  predicate CleanRoutes(rs: seq<Route>) {
    forall r | r in rs :: CleanRoute(r)
  }

  /** Text up to the first separator is determined by the whole. */
  lemma {:induction false} FirstPart(c: char, a: string, b: string, x: string, y: string)
    requires c !in a && c !in b && a + [c] + x == b + [c] + y
    ensures a == b && x == y
  {
    assert (a + [c] + x)[0] == (b + [c] + y)[0];
    if a == [] && b == [] {
      assert x == ([c] + x)[1..] && y == ([c] + y)[1..];
      assert a + [c] + x == [c] + x && b + [c] + y == [c] + y;
    } else if a != [] && b != [] {
      assert a[0] == (a + [c] + x)[0] == (b + [c] + y)[0] == b[0];
      assert (a + [c] + x)[1..] == a[1..] + [c] + x && (b + [c] + y)[1..] == b[1..] + [c] + y;
      FirstPart(c, a[1..], b[1..], x, y);
      assert a == [a[0]] + a[1..] && b == [b[0]] + b[1..];
    }
  }

  lemma {:induction false} JoinHasNo(c: char, ss: seq<string>)
    requires c != ',' && forall s | s in ss :: c !in s
    ensures c !in Join(ss)
  {
    if |ss| > 1 {
      JoinHasNo(c, ss[1..]);
    }
  }

  /** Comma-free entries can be read back from the joined text. */
  lemma {:induction false} JoinInjective(a: seq<string>, b: seq<string>)
    requires CleanList(a) && CleanList(b) && Join(a) == Join(b)
    ensures a == b
    decreases |a|
  {
    assert a[0] in a && b[0] in b;
    if |a| > 1 && |b| > 1 {
      assert Join(a) == a[0] + [','] + Join(a[1..]) && Join(b) == b[0] + [','] + Join(b[1..]);
      FirstPart(',', a[0], b[0], Join(a[1..]), Join(b[1..]));
      JoinInjective(a[1..], b[1..]);
      assert a == [a[0]] + a[1..] && b == [b[0]] + b[1..];
    } else {
      JoinComma(a);
      JoinComma(b);
    }
  }

  lemma JoinComma(ss: seq<string>)
    ensures |ss| > 1 ==> ',' in Join(ss)
  {
  }

  lemma SignatureInjective(r: Route, s: Route)
    requires CleanRoute(r) && CleanRoute(s) && Signature(r) == Signature(s)
    ensures r == s
  {
    var x, y := Join(r.domains) + "|" + Join(r.urls), Join(s.domains) + "|" + Join(s.urls);
    assert Signature(r) == r.name + ['|'] + x && Signature(s) == s.name + ['|'] + y;
    FirstPart('|', r.name, s.name, x, y);
    JoinHasNo('|', r.domains);
    JoinHasNo('|', s.domains);
    assert x == Join(r.domains) + ['|'] + Join(r.urls) && y == Join(s.domains) + ['|'] + Join(s.urls);
    FirstPart('|', Join(r.domains), Join(s.domains), Join(r.urls), Join(s.urls));
    JoinInjective(r.domains, s.domains);
    JoinInjective(r.urls, s.urls);
  }

  /** Equal signatures mean equal route lists, when no domain or URL holds a separator. */
  lemma SameSignatureSameRoutes(a: seq<Route>, b: seq<Route>)
    requires CleanRoutes(a) && CleanRoutes(b) && SignaturesOf(a) == SignaturesOf(b)
    ensures a == b
  {
    assert |a| == |SignaturesOf(a)| == |SignaturesOf(b)| == |b|;
    forall i | 0 <= i < |a| ensures a[i] == b[i] {
      assert a[i] in a && b[i] in b;
      assert SignaturesOf(a)[i] == SignaturesOf(b)[i];
      SignatureInjective(a[i], b[i]);
    }
  }

  /** With a comma inside a domain two different configurations share a signature. */
  lemma CommaBreaksSignature()
    ensures var a, b := Route("default-0", ["a.,b."], ["udp://u"]), Route("default-0", ["a.", "b."], ["udp://u"]);
            Signature(a) == Signature(b) && a != b
  {
    var a, b := Route("default-0", ["a.,b."], ["udp://u"]), Route("default-0", ["a.", "b."], ["udp://u"]);
    assert ["a.", "b."][1..] == ["b."];
    assert Join(["a.", "b."]) == "a." + "," + "b.";
    assert a.domains != b.domains;
  }

  /******* Names *******/

  lemma {:induction false} DigitsFacts(n: nat)
    ensures Digits(n) != "" && '|' !in Digits(n) && ',' !in Digits(n)
  {
    if n >= 10 {
      DigitsFacts(n / 10);
    }
  }

  lemma {:induction false} DigitsInjective(a: nat, b: nat)
    requires Digits(a) == Digits(b)
    ensures a == b
    decreases a
  {
    DigitsParts(a);
    DigitsParts(b);
    DigitInjective(a % 10, b % 10);
    hide Digits, Digit;
    if a >= 10 && b >= 10 {
      DigitsInjective(a / 10, b / 10);
    }
  }

  lemma DigitInjective(a: nat, b: nat)
    requires a < 10 && b < 10
    ensures Digit(a) == Digit(b) ==> a == b
  {
  }

  lemma DigitsParts(n: nat)
    ensures var x := Digits(n);
            && x != "" && x[|x| - 1] == Digit(n % 10)
            && (if n < 10 then |x| == 1 else |x| > 1 && x[..|x| - 1] == Digits(n / 10))
  {
    if n >= 10 {
      DigitsFacts(n / 10);
    }
  }

  lemma RouteNamesDiffer(i: nat, j: nat)
    requires RouteName(i) == RouteName(j)
    ensures i == j
  {
    assert RouteName(i)[8..] == Digits(i) && RouteName(j)[8..] == Digits(j);
    DigitsInjective(i, j);
  }

  ghost predicate DistinctNames(rs: seq<Route>) {
    forall i, j | 0 <= i < j < |rs| :: rs[i].name != rs[j].name
  }

  lemma RoutesHaveDistinctNames(inputs: seq<Input>, url: Server -> string)
    ensures DistinctNames(RoutesOf(inputs, url))
  {
    var rs := RoutesOf(inputs, url);
    forall i, j | 0 <= i < j < |rs| ensures rs[i].name != rs[j].name {
      if rs[i].name == rs[j].name {
        RouteNamesDiffer(i, j);
      }
    }
  }

  /******* Installed clients *******/

  datatype Client = Client(urls: seq<string>, open: bool)

  /** The provider's remembered signature, its router, and the clients attached by name. */
  datatype Provider = Provider(signature: seq<string>, router: seq<Route>, attached: map<string, Client>)

  const NEW_PROVIDER := Provider([], [], map[])

  /** How an installation goes: through, or to an error after some of the new clients were
      attached, in whatever order. All of them were when setting the router fails. */
  datatype Fault = NoFault | Stops(done: set<string>)

  function Names(rs: seq<Route>): set<string> {
    set r | r in rs :: r.name
  }

  function Clients(rs: seq<Route>, open: bool): (m: map<string, Client>)
    ensures m.Keys == Names(rs)
  {
    if rs == [] then map[]
    else
      var init, last := rs[..|rs| - 1], rs[|rs| - 1];
      assert rs == init + [last];
      Clients(init, open)[last.name := Client(last.urls, open)]
  }

  function Only(m: map<string, Client>, names: set<string>): map<string, Client> {
    map n | n in m && n in names :: m[n]
  }

  /** Every question is answered as the remembered routes say, by an open client. */
  ghost predicate Healthy(p: Provider) {
    p.signature == SignaturesOf(p.router) && forall r | r in p.router :: Answers(p, r)
  }

  predicate Answers(p: Provider, r: Route) {
    r.name in p.attached && p.attached[r.name] == Client(r.urls, true)
  }

  /** On an error every new client is closed; those already attached stay attached, and
      router and signature are kept. Otherwise names that are no longer used are detached. */
  function Install(p: Provider, rs: seq<Route>, fault: Fault): Provider {
    match fault
    case Stops(done) => p.(attached := p.attached + Only(Clients(rs, false), done))
    case NoFault => Provider(SignaturesOf(rs), rs, p.attached - (Names(p.router) - Names(rs)) + Clients(rs, true))
  }

  function Refresh(p: Provider, rs: seq<Route>, fault: Fault): Provider {
    if p.signature == SignaturesOf(rs) then p else Install(p, rs, fault)
  }

  lemma {:induction false} ClientsValue(rs: seq<Route>, open: bool, n: string)
    requires n in Names(rs)
    ensures exists r :: r in rs && r.name == n && Clients(rs, open)[n] == Client(r.urls, open)
  {
    var init, last := rs[..|rs| - 1], rs[|rs| - 1];
    assert rs == init + [last];
    if n == last.name {
      assert last in rs;
    } else {
      ClientsValue(init, open, n);
    }
  }

  lemma SameName(rs: seq<Route>, r: Route, s: Route)
    requires DistinctNames(rs) && r in rs && s in rs && r.name == s.name
    ensures r == s
  {
    var i :| 0 <= i < |rs| && rs[i] == r;
    var j :| 0 <= j < |rs| && rs[j] == s;
  }

  lemma ClientOf(rs: seq<Route>, open: bool, r: Route)
    requires DistinctNames(rs) && r in rs
    ensures r.name in Clients(rs, open) && Clients(rs, open)[r.name] == Client(r.urls, open)
  {
    ClientsValue(rs, open, r.name);
    var s :| s in rs && s.name == r.name && Clients(rs, open)[r.name] == Client(s.urls, open);
    SameName(rs, r, s);
  }

  /******* Runs of refreshes *******/

  datatype Ask = Ask(routes: seq<Route>, fault: Fault)

  ghost predicate AskOk(a: Ask) {
    DistinctNames(a.routes) && (a.fault.Stops? ==> a.fault.done <= Names(a.routes))
  }

  function After(asks: seq<Ask>): Provider {
    if asks == [] then NEW_PROVIDER
    else Refresh(After(asks[..|asks| - 1]), asks[|asks| - 1].routes, asks[|asks| - 1].fault)
  }

  /** The names that failed installations attached since the last one that went through. */
  function Damage(asks: seq<Ask>): set<string> {
    if asks == [] then {}
    else
      var init, last := asks[..|asks| - 1], asks[|asks| - 1];
      if After(init).signature == SignaturesOf(last.routes) then Damage(init)
      else if last.fault.NoFault? then {}
      else Damage(init) + last.fault.done
  }

  /** Route by route: the client answers exactly when its name was not damaged. */
  ghost predicate DamageExact(p: Provider, damage: set<string>) {
    && p.signature == SignaturesOf(p.router) && DistinctNames(p.router)
    && forall r | r in p.router :: Answers(p, r) <==> r.name !in damage
  }

  lemma InstalledExact(p: Provider, rs: seq<Route>)
    requires DistinctNames(rs)
    ensures DamageExact(Install(p, rs, NoFault), {})
  {
    forall r | r in rs ensures Answers(Install(p, rs, NoFault), r) {
      ClientOf(rs, true, r);
    }
  }

  lemma StoppedExact(p: Provider, rs: seq<Route>, done: set<string>, damage: set<string>)
    requires DamageExact(p, damage) && done <= Names(rs)
    ensures DamageExact(Install(p, rs, Stops(done)), damage + done)
  {
    var q := Install(p, rs, Stops(done));
    forall r | r in q.router ensures Answers(q, r) <==> r.name !in damage + done {
      if r.name in done {
        ClientsValue(rs, false, r.name);
      }
    }
  }

  lemma {:induction false} RunExact(asks: seq<Ask>)
    requires forall a | a in asks :: AskOk(a)
    ensures DamageExact(After(asks), Damage(asks))
  {
    if asks != [] {
      var init, last := asks[..|asks| - 1], asks[|asks| - 1];
      assert asks == init + [last] && last in asks;
      RunExact(init);
      hide DamageExact;
      if After(init).signature != SignaturesOf(last.routes) {
        if last.fault.NoFault? {
          InstalledExact(After(init), last.routes);
        } else {
          StoppedExact(After(init), last.routes, last.fault.done, Damage(init));
        }
      }
    }
  }

  /** Over every run of refreshes, the installed clients answer as the remembered routes
      say if and only if no failed installation since the last successful one attached a
      name of those routes. */
  lemma HealthyIffUndamaged(asks: seq<Ask>)
    requires forall a | a in asks :: AskOk(a)
    ensures Healthy(After(asks)) <==> Damage(asks) !! Names(After(asks).router)
  {
    RunExact(asks);
  }

  lemma {:induction false} RouterClean(asks: seq<Ask>)
    requires forall a | a in asks :: CleanRoutes(a.routes)
    ensures CleanRoutes(After(asks).router)
  {
    if asks != [] {
      assert asks == asks[..|asks| - 1] + [asks[|asks| - 1]] && asks[|asks| - 1] in asks;
      RouterClean(asks[..|asks| - 1]);
    }
  }

  /** After any run, a refresh that meets no error leaves the requested routes in force.
      They are answered as by a fresh rebuild if and only if the rebuild took place or the
      clients it would have replaced were undamaged. */
  lemma RefreshIsSound(asks: seq<Ask>, rs: seq<Route>)
    requires forall a | a in asks :: AskOk(a) && CleanRoutes(a.routes)
    requires DistinctNames(rs) && CleanRoutes(rs)
    ensures var p := After(asks);
            var q := Refresh(p, rs, NoFault);
            && q.router == rs
            && (Healthy(q) <==> p.signature != SignaturesOf(rs) || Damage(asks) !! Names(rs))
  {
    var p := After(asks);
    RunExact(asks);
    RouterClean(asks);
    if p.signature == SignaturesOf(rs) {
      SameSignatureSameRoutes(p.router, rs);
    } else {
      InstalledExact(p, rs);
    }
  }

  /** One failed refresh of a healthy provider breaks it if and only if it attached a name
      in use; and then going back to the configuration in use is skipped and repairs nothing. */
  lemma FailedAttachBreaks(p: Provider, rs: seq<Route>, done: set<string>)
    requires Healthy(p) && DistinctNames(p.router) && p.signature != SignaturesOf(rs) && done <= Names(rs)
    ensures var broken := Refresh(p, rs, Stops(done));
            && (Healthy(broken) <==> done !! Names(p.router))
            && Refresh(broken, p.router, NoFault) == broken
  {
    StoppedExact(p, rs, done, {});
  }

  /** The failing family at its smallest: the first of two new clients takes the name in
      use, attaching the second one fails. */
  lemma FailedAttachExample()
    ensures var was := Route("default-0", ["."], ["udp://a"]);
            var now := [Route("default-0", ["."], ["udp://b"]), Route("default-1", ["x."], ["udp://c"])];
            var p := After([Ask([was], NoFault)]);
            Healthy(p) && !Healthy(Refresh(p, now, Stops({"default-0"})))
  {
    var was := Route("default-0", ["."], ["udp://a"]);
    var now := [Route("default-0", ["."], ["udp://b"]), Route("default-1", ["x."], ["udp://c"])];
    var asks := [Ask([was], NoFault)];
    assert asks[..0] == [];
    assert |SignaturesOf([was])| == 1 && |SignaturesOf(now)| == 2 && |SignaturesOf([])| == 0;
    RunExact(asks);
    var p := After(asks);
    assert p.router == [was] && now[0] in now && was in p.router;
    FailedAttachBreaks(p, now, {"default-0"});
  }

  /******* Built routes *******/

  lemma NormalizedNonBlank(domains: seq<string>)
    ensures forall d | d in Normalized(domains) :: d != ""
    ensures Normalized(domains) == [] <==> domains == []
  {
  }

  lemma AddedShape(domains: seq<string>, servers: seq<Server>)
    requires forall d | d in domains :: d != ""
    ensures forall x | x in Added(domains, servers) :: x.domains != [] && x.servers != [] && "" !in x.domains
  {
    var names := if domains == [] then ["."] else domains;
    UniqueDomainsMembers(names);
    assert names[0] in names;
    assert names[0] in UniqueDomains(names);
  }

  lemma {:induction false} OthersShape(v: View, exclude: seq<Addr>, ks: seq<nat>)
    ensures forall x | x in Others(v, exclude, ks) :: x.domains != [] && x.servers != [] && "" !in x.domains
  {
    hide Added, Normalized, Allowed;
    if ks != [] {
      var k := ks[|ks| - 1];
      OthersShape(v, exclude, ks[..|ks| - 1]);
      NormalizedNonBlank(DomainsAt(v.domains, k));
      AddedShape(Normalized(DomainsAt(v.domains, k)), Allowed(ServersAt(v.servers, k), exclude));
    }
  }

  lemma InputsShape(v: View, exclude: seq<Addr>, ks: seq<nat>)
    ensures forall x | x in Inputs(v, exclude, ks) :: x.domains != [] && x.servers != [] && "" !in x.domains
  {
    hide Added, Normalized, Allowed, Others, Target;
    var t := Target(v, exclude);
    NormalizedNonBlank(t.domains);
    AddedShape(Normalized(t.domains), t.servers);
    OthersShape(v, exclude, ks);
    AddedShape(["."], Allowed(v.fallback, exclude));
  }

  /** Selected routes meet the signature's conditions as soon as no domain and no URL
      holds a separator. */
  lemma SelectedRoutesClean(v: View, exclude: seq<Addr>, ks: seq<nat>, url: Server -> string)
    requires forall x, d | x in Inputs(v, exclude, ks) && d in x.domains :: ',' !in d && '|' !in d
    requires forall s: Server :: Clean(url(s))
    ensures CleanRoutes(RoutesOf(Inputs(v, exclude, ks), url)) && DistinctNames(RoutesOf(Inputs(v, exclude, ks), url))
  {
    var inputs := Inputs(v, exclude, ks);
    InputsShape(v, exclude, ks);
    hide Inputs, Digits, DistinctNames;
    RoutesHaveDistinctNames(inputs, url);
    var rs := RoutesOf(inputs, url);
    forall i | 0 <= i < |rs| ensures CleanRoute(rs[i]) {
      assert inputs[i] in inputs;
      DigitsFacts(i);
      CleanUrls(inputs[i].servers, url);
    }
  }

  lemma CleanUrls(servers: seq<Server>, url: Server -> string)
    requires servers != [] && forall s: Server :: Clean(url(s))
    ensures CleanList(Urls(servers, url))
  {
  }

  /******* The provider object *******/

  lemma ClientsOfPart(rs: seq<Route>, part: seq<Route>, open: bool)
    requires DistinctNames(rs) && forall r | r in part :: r in rs
    ensures Clients(part, open) == Only(Clients(rs, open), Names(part))
  {
    forall n | n in Names(part) ensures n in Clients(rs, open) && Clients(part, open)[n] == Clients(rs, open)[n] {
      ClientsValue(part, open, n);
      var r :| r in part && r.name == n && Clients(part, open)[n] == Client(r.urls, open);
      ClientOf(rs, open, r);
    }
  }

  lemma OrderNames(rs: seq<Route>, order: seq<Route>, open: bool)
    requires (forall r :: r in order <==> r in rs) && Clients(order, open) == Only(Clients(rs, open), Names(order))
    ensures Clients(order, open) == Clients(rs, open)
  {
    assert Names(order) == Names(rs);
  }

  lemma ClientsStep(m: map<string, Client>, rs: seq<Route>, i: nat, open: bool)
    requires i < |rs|
    ensures m + Clients(rs[..i + 1], open) == (m + Clients(rs[..i], open))[rs[i].name := Client(rs[i].urls, open)]
  {
    assert rs[..i + 1][..i] == rs[..i];
  }

  lemma MergeOver(m: map<string, Client>, a: map<string, Client>, b: map<string, Client>)
    requires a.Keys == b.Keys
    ensures m + a + b == m + b
  {
  }

  lemma DetachMerge(m: map<string, Client>, c: map<string, Client>, gone: set<string>)
    requires c.Keys !! gone
    ensures m + c - gone == m - gone + c
  {
  }

  /** After an installation that went through every route has its open client, and the names
      that are no longer used are gone. */
  lemma InstalledWhole(p: Provider, rs: seq<Route>)
    requires DistinctNames(rs)
    ensures var q := Install(p, rs, NoFault);
            && (forall r | r in rs :: Answers(q, r))
            && (forall r | r in p.router && (forall s | s in rs :: s.name != r.name) :: r.name !in q.attached)
  {
    forall r | r in rs ensures Answers(Install(p, rs, NoFault), r) {
      ClientOf(rs, true, r);
    }
    forall r | r in p.router && (forall s | s in rs :: s.name != r.name)
      ensures r.name !in Install(p, rs, NoFault).attached
    {
      assert r.name in Names(p.router) && r.name !in Names(rs);
    }
  }

  /** After one that stopped, the clients that had been attached are there, closed, and the
      others are as they were. */
  lemma InstalledPart(p: Provider, rs: seq<Route>, order: seq<Route>, n: nat)
    requires DistinctNames(rs) && multiset(order) == multiset(rs) && n <= |order|
    ensures var q := Install(p, rs, Stops(Names(order[..n])));
            && (forall r | r in order[..n] :: r.name in q.attached && q.attached[r.name] == Client(r.urls, false))
            && (forall m | (forall r | r in order[..n] :: r.name != m) ::
                  (m in q.attached <==> m in p.attached) && (m in q.attached ==> q.attached[m] == p.attached[m]))
  {
    var part := order[..n];
    forall r | r in part
      ensures r.name in Clients(rs, false) && Clients(rs, false)[r.name] == Client(r.urls, false)
      ensures r.name in Names(part)
    {
      assert r in order;
      assert r in multiset(order) <==> r in multiset(rs);
      ClientOf(rs, false, r);
    }
    forall m | (forall r | r in part :: r.name != m) ensures m !in Names(part) {
    }
    hide Clients;
  }

  /******* Where a question goes *******/

  /** Input `i` has a domain that matches the name and is as long as any other that does. */
  ghost predicate BestInput(inputs: seq<Input>, name: string, i: nat) {
    && i < |inputs|
    && exists d :: && d in inputs[i].domains && NameMatches(name, d)
                   && forall k, e | 0 <= k < |inputs| && e in inputs[k].domains && NameMatches(name, e) ::
                        DomainLength(e) <= DomainLength(d)
  }

  /** The client forwards to the servers, in order. */
  ghost predicate Serves(c: Client, servers: seq<Server>, url: Server -> string) {
    c.open && |c.urls| == |servers| && forall j | 0 <= j < |servers| :: c.urls[j] == url(servers[j])
  }

  /** In a healthy provider a question reaches the servers of an input with the longest
      matching domain; it is not answered only if no input has a matching domain. */
  lemma QuestionReachesServers(p: Provider, inputs: seq<Input>, url: Server -> string, name: string, answer: string)
    requires Healthy(p) && p.router == RoutesOf(inputs, url) && IsAnswer(p.router, name, answer)
    ensures || (answer == "" && forall i, d | 0 <= i < |inputs| && d in inputs[i].domains :: !NameMatches(name, d))
            || exists i: nat :: && BestInput(inputs, name, i) && answer in p.attached
                                && Serves(p.attached[answer], inputs[i].servers, url)
  {
    hide NameMatches, DomainLength;
    var rs := p.router;
    if answer == "" && forall r, d | r in rs && d in r.domains :: !NameMatches(name, d) {
      forall i, d | 0 <= i < |inputs| && d in inputs[i].domains ensures !NameMatches(name, d) {
        assert rs[i] in rs && d in rs[i].domains;
      }
    } else {
      var i, score :| Wins(rs, name, i, score) && answer == rs[i].name;
      WinnerIsBest(inputs, url, name, i, score);
      assert rs[i] in rs && Answers(p, rs[i]);
      assert Serves(p.attached[answer], inputs[i].servers, url);
    }
  }

  lemma WinnerIsBest(inputs: seq<Input>, url: Server -> string, name: string, i: int, score: int)
    requires Wins(RoutesOf(inputs, url), name, i, score)
    ensures BestInput(inputs, name, i)
  {
    hide NameMatches, DomainLength;
    var rs := RoutesOf(inputs, url);
    var d :| d in rs[i].domains && NameMatches(name, d) && DomainLength(d) == score;
    forall k, e | 0 <= k < |inputs| && e in inputs[k].domains && NameMatches(name, e)
      ensures DomainLength(e) <= DomainLength(d)
    {
      var other := ScoreOf(rs[k], name);
      assert DomainLength(e) <= other;
    }
  }

  /** Every route has a score. */
  lemma {:induction false} ScoreOf(r: Route, name: string) returns (score: int)
    ensures IsScore(r, name, score)
    decreases |r.domains|
  {
    hide NameMatches, DomainLength;
    if r.domains == [] {
      score := -1;
    } else {
      var init, last := r.domains[..|r.domains| - 1], r.domains[|r.domains| - 1];
      assert r.domains == init + [last];
      score := ScoreOf(r.(domains := init), name);
      if NameMatches(name, last) && score < DomainLength(last) {
        score := DomainLength(last);
      }
    }
  }

  class Upstream {
    var signature: seq<string>
    var router: seq<Route>
    var attached: map<string, Client>

    constructor ()
      ensures Value() == NEW_PROVIDER
    {
      signature, router, attached := [], [], map[];
    }

    function Value(): Provider
      reads this
    {
      Provider(signature, router, attached)
    }

    method AttachAll(rs: seq<Route>, open: bool)
      modifies this`attached
      ensures attached == old(attached) + Clients(rs, open)
    {
      for i := 0 to |rs|
        invariant attached == old(attached) + Clients(rs[..i], open)
      {
        hide Clients;
        ClientsStep(old(attached), rs, i, open);
        attached := attached[rs[i].name := Client(rs[i].urls, open)];
      }
      assert rs[..|rs|] == rs;
    }

    /** `order` is the order in which the map of new clients is visited; the error comes
        after `stopsAt` of them are attached. */
    method SetUpstreamConfig(rs: seq<Route>, order: seq<Route>, stopsAt: Option<nat>) returns (ok: bool)
      requires DistinctNames(rs) && multiset(order) == multiset(rs) && (stopsAt.Some? ==> stopsAt.value <= |order|)
      modifies this
      ensures ok == stopsAt.None?
      ensures ok ==> Value() == Install(old(Value()), rs, NoFault)
      ensures !ok ==> Value() == Install(old(Value()), rs, Stops(Names(order[..stopsAt.value])))
    {
      hide DistinctNames, Clients, Only, SignaturesOf, Names;
      forall r ensures r in order <==> r in rs {
        assert r in multiset(order) <==> r in multiset(rs);
      }
      if stopsAt.Some? {
        var part := order[..stopsAt.value];
        ClientsOfPart(rs, part, false);
        MergeOver(attached, Clients(part, true), Clients(part, false));
        AttachAll(part, true);
        AttachAll(part, false);
        return false;
      }
      ClientsOfPart(rs, order, true);
      OrderNames(rs, order, true);
      DetachMerge(attached, Clients(rs, true), Names(router) - Names(rs));
      AttachAll(order, true);
      attached := attached - (Names(router) - Names(rs));
      router := rs;
      signature := SignaturesOf(rs);
      return true;
    }

    method RefreshUpstreams(rs: seq<Route>, order: seq<Route>, stopsAt: Option<nat>) returns (ok: bool)
      requires DistinctNames(rs) && multiset(order) == multiset(rs) && (stopsAt.Some? ==> stopsAt.value <= |order|)
      modifies this
      ensures ok == (stopsAt.None? || old(signature) == SignaturesOf(rs))
      ensures Value() ==
                Refresh(old(Value()), rs, if stopsAt.None? then NoFault else Stops(Names(order[..stopsAt.value])))
    {
      if signature == SignaturesOf(rs) {
        return true;
      }
      ok := SetUpstreamConfig(rs, order, stopsAt);
    }
  }
}
