/** The direct DNS provider: it owns /etc/resolv.conf while a managed server is set and
    puts the original back afterwards. Reads, writes, removals and attaching a client
    may fail; a failed write may leave the file in any state. */
module Direct {
  import opened Netip
  import opened Strings
  import opened Resolved

  const OWNER := "sysnet-linux direct DNS provider"

  /** `None` is an absent file. */
  type File = Option<string>

  predicate HasAt(text: string, part: string, i: int) {
    0 <= i <= |text| - |part| && text[i..i + |part|] == part
  }

  predicate Contains(text: string, part: string) {
    exists i | 0 <= i <= |text| :: HasAt(text, part, i)
  }

  const MARKER := "generated by " + OWNER
  const LINE_1 := "# resolv.conf(5) file " + MARKER
  const LINE_2 := "# DO NOT EDIT THIS FILE BY HAND" + " -- CHANGES WILL BE OVERWRITTEN"
  const HEADER := LINE_1 + "\n" + LINE_2 + "\n\n"

  predicate Owned(text: string) {
    Contains(text, MARKER)
  }

  /** The managed file for a server, given the server's text. */
  function Managed(server: string): string {
    HEADER + "nameserver " + server + "\n"
  }

  lemma ManagedIsOwned(server: string)
    ensures Owned(Managed(server))
  {
    var start := "# resolv.conf(5) file ";
    var rest := "\n" + LINE_2 + "\n\n" + "nameserver " + server + "\n";
    assert Managed(server) == start + MARKER + rest;
    assert HasAt(Managed(server), MARKER, |start|);
  }

  /******* The lines of the managed file *******/

  function Unlines(ls: seq<string>): string {
    if ls == [] then "" else ls[0] + "\n" + Unlines(ls[1..])
  }

  predicate LineStart(text: string, i: nat) {
    i < |text| && (i == 0 || text[i - 1] == '\n')
  }

  /** A line of the text begins where one of the lines it was made of begins. */
  lemma {:induction false} LineOf(ls: seq<string>, i: nat) returns (k: nat)
    requires (forall l | l in ls :: '\n' !in l) && LineStart(Unlines(ls), i)
    ensures k < |ls| && Unlines(ls)[i..] == Unlines(ls[k..])
  {
    var first, rest := ls[0], Unlines(ls[1..]);
    var text := first + "\n" + rest;
    if i == 0 {
      k := 0;
      assert ls[0..] == ls && text[0..] == text;
    } else {
      assert first in ls;
      assert forall x | 0 <= x < |first| :: text[x] == first[x] && first[x] in first;
      var j := i - |first| - 1;
      assert j > 0 ==> text[i - 1] == rest[j - 1];
      k := LineOf(ls[1..], j);
      assert text[i..] == rest[j..] && ls[1..][k..] == ls[k + 1..];
      k := k + 1;
    }
  }

  /** The resolver reads one line `nameserver <server>`, at the end, and no other. */
  ghost predicate NamesOnly(text: string, server: string) {
    && (forall i: nat | LineStart(text, i) && HasAt(text, "nameserver", i) ::
          text[i..] == "nameserver " + server + "\n")
    && exists i: nat :: LineStart(text, i) && HasAt(text, "nameserver", i)
  }

  lemma PlainLine1()
    ensures '\n' !in LINE_1 && LINE_1[0] == '#'
  {
    var front, middle := "# resolv.conf(5) file ", "generated by ";
    assert '\n' !in front && front[0] == '#';
    assert '\n' !in middle;
    assert '\n' !in OWNER;
    assert LINE_1 == front + (middle + OWNER);
  }

  lemma PlainLine2()
    ensures '\n' !in LINE_2 && LINE_2[0] == '#'
  {
    var front, rear := "# DO NOT EDIT THIS FILE BY HAND", " -- CHANGES WILL BE OVERWRITTEN";
    assert '\n' !in front && front[0] == '#';
    assert '\n' !in rear;
    assert LINE_2 == front + rear;
  }

  lemma PlainLines(server: string)
    requires '\n' !in server
    ensures '\n' !in LINE_1 && '\n' !in LINE_2 && '\n' !in "nameserver " + server
    ensures LINE_1[0] == '#' && LINE_2[0] == '#'
  {
    PlainLine1();
    PlainLine2();
    var front := "nameserver ";
    assert '\n' !in front;
  }

  lemma ManagedLines(server: string)
    ensures Managed(server) == Unlines([LINE_1, LINE_2, "", "nameserver " + server])
    ensures Managed(server)[|HEADER|..] == "nameserver " + server + "\n"
  {
    var last := "nameserver " + server;
    assert Unlines([last]) == last + "\n" by {
      assert [last][1..] == [];
    }
    assert Unlines(["", last]) == "\n" + (last + "\n") by {
      assert ["", last][1..] == [last];
    }
    assert [LINE_2, "", last][1..] == ["", last] && [LINE_1, LINE_2, "", last][1..] == [LINE_2, "", last];
    assert Managed(server) == HEADER + (last + "\n");
  }

  /** The managed file names the server and nothing else. */
  lemma ManagedNamesServer(server: string)
    requires '\n' !in server
    ensures NamesOnly(Managed(server), server)
  {
    PlainLines(server);
    ManagedLines(server);
    var text, n, last := Managed(server), |HEADER|, "nameserver " + server;
    assert text[n - 1] == HEADER[n - 1] && HEADER[n - 1] == '\n';
    assert text[n..n + |"nameserver"|] == text[n..][..|"nameserver"|] && last[..|"nameserver"|] == "nameserver";
    assert LineStart(text, n) && HasAt(text, "nameserver", n);
    forall i: nat | LineStart(text, i) && HasAt(text, "nameserver", i) ensures text[i..] == last + "\n" {
      OnlyLastNames(server, i);
    }
  }

  lemma OnlyLastNames(server: string, i: nat)
    requires '\n' !in server && LineStart(Managed(server), i) && HasAt(Managed(server), "nameserver", i)
    ensures Managed(server)[i..] == "nameserver " + server + "\n"
  {
    PlainLines(server);
    ManagedLines(server);
    var text, last := Managed(server), "nameserver " + server;
    var ls := [LINE_1, LINE_2, "", last];
    hide Managed;
    var k := LineOf(ls, i);
    assert text[i] == text[i..i + |"nameserver"|][0] && text[i..][0] == text[i];
    assert Unlines(ls[k..])[0] == 'n';
    assert ls[k..][0] == ls[k];
    assert k == 3;
    assert ls[3..] == [last] && [last][1..] == [];
  }

  /** What was found at start, and the fallback servers. */
  datatype Origin = Origin(file: File, servers: seq<Server>, fallback: seq<Server>)

  datatype Write = Written | Failed(left: File)

  /** The client attached to the resolver, with the servers it forwards to. */
  datatype Client = Client(servers: seq<Server>, open: bool)

  /** `upstreams` is the remembered signature, and `last` remembers how the last attempt to
      change the file ended. */
  datatype State = State(closed: bool, active: bool, server: Addr, upstreams: seq<Server>, attached: Client,
                         file: File, last: Option<Write>)

  /** How attaching a new client turns out: through, refused, or attached before setting
      the router failed. */
  datatype Attach = Attached | Refused | RouterFails

  /** How the calls of one operation turn out. */
  datatype Luck = Luck(read: bool, write: Write, remove: bool, attach: Attach)

  /******* Upstreams *******/

  function Upstreams(o: Origin, exclude: seq<Addr>): seq<Server> {
    var own := Allowed(o.servers, exclude);
    UniqueServers(if own != [] then own else Allowed(o.fallback, exclude))
  }

  lemma UpstreamsExclude(o: Origin, exclude: seq<Addr>)
    ensures forall s | s in Upstreams(o, exclude) :: s.addr.IsValid() && s.addr !in exclude
  {
    var own := Allowed(o.servers, exclude);
    AllowedMembers(o.servers, exclude);
    AllowedMembers(o.fallback, exclude);
    UniqueMembers(if own != [] then own else Allowed(o.fallback, exclude));
  }

  /** The servers found at start, if one of them may be used; only otherwise the fallback. */
  lemma UpstreamsChosen(o: Origin, exclude: seq<Addr>)
    ensures (exists s :: s in o.servers && !Excluded(s.addr, exclude)) ==>
              forall s :: s in Upstreams(o, exclude) <==> s in o.servers && s.addr.IsValid() && s.addr !in exclude
    ensures (forall s | s in o.servers :: Excluded(s.addr, exclude)) ==>
              forall s :: s in Upstreams(o, exclude) <==> s in o.fallback && s.addr.IsValid() && s.addr !in exclude
    ensures Distinct(Upstreams(o, exclude))
  {
    var own := Allowed(o.servers, exclude);
    AllowedMembers(o.servers, exclude);
    AllowedMembers(o.fallback, exclude);
    UniqueMembers(if own != [] then own else Allowed(o.fallback, exclude));
    NonEmptyMember(own);
    hide Allowed, UniqueServers;
  }

  datatype Outcome = Outcome(ok: bool, state: State)

  /** An error closes the new client; if it was attached already, it stays attached. */
  function RefreshUpstreams(o: Origin, d: State, exclude: seq<Addr>, attach: Attach): Outcome {
    var servers := Upstreams(o, exclude);
    if servers == [] then Outcome(false, d)
    else if servers == d.upstreams then Outcome(true, d)
    else if d.closed || attach.Refused? then Outcome(false, d)
    else if attach.RouterFails? then Outcome(false, d.(attached := Client(servers, false)))
    else Outcome(true, d.(upstreams := servers, attached := Client(servers, true)))
  }

  lemma RefreshedUpstreams(o: Origin, d: State, exclude: seq<Addr>, attach: Attach)
    ensures var r := RefreshUpstreams(o, d, exclude, attach); r.ok ==> r.state.upstreams == Upstreams(o, exclude)
  {
  }

  /******* Operations *******/

  function SetDNS(o: Origin, d: State, server: Addr, text: string, luck: Luck): Outcome {
    if !server.IsValid() || d.closed then Outcome(false, d)
    else
      var ready := RefreshUpstreams(o, d, if d.active then [server, d.server] else [server], luck.attach);
      if !ready.ok then ready
      else if luck.write.Failed? then
        Outcome(false, ready.state.(file := luck.write.left, last := Some(luck.write)))
      else
        Outcome(true,
                ready.state.(file := Some(Managed(text)), last := Some(Written), server := server, active := true))
  }

  /** Only a missing or recognisably owned file is replaced. */
  function Restore(o: Origin, d: State, luck: Luck): Outcome {
    if d.file.Some? && !luck.read then Outcome(false, d)
    else if d.file.Some? && !Owned(d.file.value) then Outcome(true, d)
    else if o.file.Some? then
      if luck.write.Failed? then Outcome(false, d.(file := luck.write.left, last := Some(luck.write)))
      else Outcome(true, d.(file := o.file, last := Some(Written)))
    else if d.file.Some? && !luck.remove then Outcome(false, d)
    else Outcome(true, d.(file := None, last := Some(Written)))
  }

  function UnsetDNS(o: Origin, d: State, luck: Luck): Outcome {
    if d.closed then Outcome(false, d)
    else if !d.active then Outcome(true, d)
    else
      var restored := Restore(o, d, luck);
      var refreshed := RefreshUpstreams(o, restored.state, [d.server], luck.attach);
      if restored.ok && refreshed.ok then Outcome(true, refreshed.state.(server := NoAddr, active := false))
      else Outcome(false, refreshed.state)
  }

  function Close(o: Origin, d: State, luck: Luck): Outcome {
    if d.closed && !d.active then Outcome(true, d)
    else
      var closed := d.(closed := true, attached := d.attached.(open := false));
      if !d.active then Outcome(true, closed)
      else
        var restored := Restore(o, closed, luck);
        if restored.ok then Outcome(true, restored.state.(server := NoAddr, active := false))
        else Outcome(false, restored.state)
  }

  datatype Step =
    | SetsDNS(server: Addr, text: string, luck: Luck)
    | UnsetsDNS(luck: Luck)
    | Closes(luck: Luck)

  function Next(o: Origin, d: State, step: Step): Outcome {
    match step
    case SetsDNS(server, text, luck) => SetDNS(o, d, server, text, luck)
    case UnsetsDNS(luck) => UnsetDNS(o, d, luck)
    case Closes(luck) => Close(o, d, luck)
  }

  ghost predicate Initial(o: Origin, d: State) {
    d == State(false, false, NoAddr, Upstreams(o, []), Client(Upstreams(o, []), true), o.file, None)
  }

  ghost predicate Run(o: Origin, ds: seq<State>, steps: seq<Step>) {
    && |ds| == |steps| + 1 && Initial(o, ds[0])
    && forall i | 0 <= i < |steps| :: ds[i + 1] == Next(o, ds[i], steps[i]).state
  }

  /******* The managed server is never an upstream *******/

  /** An open client forwards to the remembered upstreams, and the managed server is not
      among them; a closed provider has no open client. */
  ghost predicate Apart(d: State) {
    && (d.closed ==> !d.attached.open)
    && (d.attached.open ==> d.attached.servers == d.upstreams)
    && (d.active ==> forall s | s in d.upstreams :: s.addr != d.server)
  }

  lemma RefreshApart(o: Origin, d: State, exclude: seq<Addr>, attach: Attach, a: Addr)
    requires a in exclude
    requires forall s | s in d.upstreams :: s.addr != a
    ensures forall s | s in RefreshUpstreams(o, d, exclude, attach).state.upstreams :: s.addr != a
  {
    UpstreamsExclude(o, exclude);
  }

  lemma RefreshOkApart(o: Origin, d: State, exclude: seq<Addr>, attach: Attach, a: Addr)
    requires a in exclude && RefreshUpstreams(o, d, exclude, attach).ok
    ensures forall s | s in RefreshUpstreams(o, d, exclude, attach).state.upstreams :: s.addr != a
  {
    UpstreamsExclude(o, exclude);
  }

  lemma ApartKept(o: Origin, d: State, step: Step)
    requires Apart(d)
    ensures Apart(Next(o, d, step).state)
  {
    hide Owned, Upstreams, Managed;
    if step.SetsDNS? && step.server.IsValid() && !d.closed {
      var exclude := if d.active then [step.server, d.server] else [step.server];
      if d.active {
        RefreshApart(o, d, exclude, step.luck.attach, d.server);
      }
      if RefreshUpstreams(o, d, exclude, step.luck.attach).ok {
        RefreshOkApart(o, d, exclude, step.luck.attach, step.server);
      }
    } else if step.UnsetsDNS? && d.active && !d.closed {
      RefreshApart(o, Restore(o, d, step.luck).state, [d.server], step.luck.attach, d.server);
    }
  }

  /** Over every run neither the remembered upstreams nor the servers of a client that
      forwards contain the managed server, and nothing forwards once the provider is closed. */
  lemma {:induction false} ManagedNeverUpstream(o: Origin, ds: seq<State>, steps: seq<Step>, i: nat)
    requires Run(o, ds, steps) && i < |ds|
    ensures Apart(ds[i])
    ensures ds[i].closed ==> !ds[i].attached.open
    ensures ds[i].active && ds[i].attached.open ==> forall s | s in ds[i].attached.servers :: s.addr != ds[i].server
  {
    if i > 0 {
      ManagedNeverUpstream(o, ds, steps, i - 1);
      ApartKept(o, ds[i - 1], steps[i - 1]);
    }
  }

  /******* The file *******/

  /** What a restore can still undo: the original, no file, or an owned one. */
  ghost predicate Restorable(o: Origin, f: File) {
    f == o.file || f.None? || Owned(f.value)
  }

  /** The last attempt on the file ended with the original in place, or there was none. */
  predicate LastWriteHarmless(o: Origin, d: State) {
    d.last.None? || d.last.value.Written? || d.last.value.left == o.file
  }

  /** What the file holds, from how the last attempt on it ended. */
  ghost predicate FileOk(o: Origin, d: State) {
    match d.last
    case None => d.file == o.file && !d.active
    case Some(Written) => d.file == o.file || (d.active && d.file.Some? && Owned(d.file.value))
    case Some(Failed(left)) => d.file == left
  }

  lemma FileKept(o: Origin, d: State, step: Step)
    requires FileOk(o, d)
    ensures FileOk(o, Next(o, d, step).state)
  {
    hide Owned, Upstreams;
    if step.SetsDNS? {
      ManagedIsOwned(step.text);
    }
  }

  lemma {:induction false} FileOverRuns(o: Origin, ds: seq<State>, steps: seq<Step>, i: nat)
    requires Run(o, ds, steps) && i < |ds|
    ensures FileOk(o, ds[i])
  {
    if i > 0 {
      FileOverRuns(o, ds, steps, i - 1);
      FileKept(o, ds[i - 1], steps[i - 1]);
    }
  }

  /** Over every run with arbitrary failures and no outside writer, an inactive provider
      holds the original file if and only if no attempt on the file was made, or the last
      one succeeded, or it left the original. */
  lemma InactiveMeansOriginal(o: Origin, ds: seq<State>, steps: seq<Step>, i: nat)
    requires Run(o, ds, steps) && i < |ds| && !ds[i].active
    ensures ds[i].file == o.file <==> LastWriteHarmless(o, ds[i])
  {
    FileOverRuns(o, ds, steps, i);
  }

  const GOOD := Luck(true, Written, true, Attached)

  /** Exactly the harmless leftovers are repaired by the next restore: a torn restore can
      be retried if and only if the file is the original, gone, or still looks owned. */
  lemma TornRestore(o: Origin, d: State, left: File)
    requires d.active && Upstreams(o, [d.server]) != []
    ensures var torn := d.(file := left);
            var again := if d.closed then Close(o, torn, GOOD) else UnsetDNS(o, torn, GOOD);
            && again.ok && !again.state.active
            && (again.state.file == o.file <==> Restorable(o, left))
  {
    hide Owned;
  }

  /** Whatever a torn write left, setting and unsetting a server without failures puts
      the original back. */
  lemma SetAndUnsetRepairs(o: Origin, d: State, server: Addr, text: string)
    requires !d.closed && server.IsValid() && Upstreams(o, if d.active then [server, d.server] else [server]) != []
    ensures var made := SetDNS(o, d, server, text, GOOD);
            var unset := UnsetDNS(o, made.state, GOOD);
            made.ok && unset.ok && !unset.state.active && unset.state.file == o.file
  {
    hide Owned, Upstreams, Managed;
    ManagedIsOwned(text);
    if d.active {
      FewerExclusions(o, server, d.server);
    }
  }

  lemma NonEmptyMember(ss: seq<Server>)
    ensures ss != [] ==> ss[0] in ss
  {
  }

  /** Excluding one address less leaves servers to forward to. */
  lemma FewerExclusions(o: Origin, a: Addr, b: Addr)
    requires Upstreams(o, [a, b]) != []
    ensures Upstreams(o, [a]) != []
  {
    var own, fewer := Allowed(o.servers, [a, b]), Allowed(o.servers, [a]);
    AllowedMembers(o.servers, [a, b]);
    AllowedMembers(o.servers, [a]);
    AllowedMembers(o.fallback, [a, b]);
    AllowedMembers(o.fallback, [a]);
    UniqueMembers(if own != [] then own else Allowed(o.fallback, [a, b]));
    UniqueMembers(if fewer != [] then fewer else Allowed(o.fallback, [a]));
    NonEmptyMember(Upstreams(o, [a, b]));
    NonEmptyMember(fewer);
    hide Allowed, UniqueServers;
    var s := Upstreams(o, [a, b])[0];
    if own == [] && fewer != [] {
      assert fewer[0] in Upstreams(o, [a]);
    } else {
      assert s in Upstreams(o, [a]);
    }
  }

  /** While a server is active there is something to forward to without it. */
  ghost predicate Feasible(o: Origin, d: State) {
    d.active ==> Upstreams(o, [d.server]) != []
  }

  lemma FeasibleKept(o: Origin, d: State, step: Step)
    requires Feasible(o, d)
    ensures Feasible(o, Next(o, d, step).state)
  {
    hide Owned, Upstreams, Managed;
    if step.SetsDNS? && d.active && Upstreams(o, [step.server, d.server]) != [] {
      FewerExclusions(o, step.server, d.server);
    }
  }

  lemma {:induction false} FeasibleOverRuns(o: Origin, ds: seq<State>, steps: seq<Step>, i: nat)
    requires Run(o, ds, steps) && i < |ds|
    ensures Feasible(o, ds[i])
  {
    if i > 0 {
      FeasibleOverRuns(o, ds, steps, i - 1);
      FeasibleKept(o, ds[i - 1], steps[i - 1]);
    }
  }

  const EXAMPLE_SERVER := Server(Addr(V4, Ones(32), ""), 53)
  const EXAMPLE := Origin(Some("nameserver 1.1.1.1\n"), [], [EXAMPLE_SERVER])

  lemma ExampleUpstreams(a: Addr)
    requires a != EXAMPLE_SERVER.addr
    ensures Upstreams(EXAMPLE, [a]) != []
  {
    AllowedMembers(EXAMPLE.servers, [a]);
    AllowedMembers(EXAMPLE.fallback, [a]);
    assert Allowed(EXAMPLE.servers, [a]) == [];
    UniqueMembers(Allowed(EXAMPLE.fallback, [a]));
    assert EXAMPLE_SERVER in EXAMPLE.fallback;
    assert EXAMPLE_SERVER in Upstreams(EXAMPLE, [a]);
  }

  lemma EmptyIsNotOwned()
    ensures !Owned("")
  {
    assert |MARKER| > 0;
  }

  /** A concrete loss: a restore that truncates the file and then fails leaves the server
      active, but the retry takes the empty file for an external change, reports success
      and gives the original up. */
  lemma TruncatedRestoreIsLost(d: State, text: string)
    requires d.active && !d.closed && d.server != EXAMPLE_SERVER.addr && d.file == Some(Managed(text))
    ensures var torn := UnsetDNS(EXAMPLE, d, GOOD.(write := Failed(Some(""))));
            var again := UnsetDNS(EXAMPLE, torn.state, GOOD);
            && !torn.ok && torn.state.active
            && again.ok && !again.state.active && again.state.file == Some("") != EXAMPLE.file
  {
    hide Owned, Upstreams, Managed;
    ManagedIsOwned(text);
    ExampleUpstreams(d.server);
    EmptyIsNotOwned();
  }

  /** A restore never touches a file that is present and not recognisably owned. */
  lemma ForeignFileIsKept(o: Origin, d: State, step: Step)
    requires (step.UnsetsDNS? || step.Closes?) && d.file.Some? && !Owned(d.file.value)
    ensures Next(o, d, step).state.file == d.file
  {
    hide Owned, Upstreams;
  }

  /** In every run a failed restore keeps the managed server marked active, so the next
      UnsetDNS, or the next Close once closed, tries again; it then puts the original back
      if and only if the failure left something a restore can undo. */
  lemma FailedRestoreIsRetried(o: Origin, ds: seq<State>, steps: seq<Step>, i: nat)
    requires Run(o, ds, steps) && i < |steps| && ds[i].active && !Next(o, ds[i], steps[i]).ok
    requires steps[i].Closes? || (steps[i].UnsetsDNS? && !ds[i].closed)
    ensures var r := ds[i + 1];
            && r.active && r.server == ds[i].server
            && var again := if r.closed then Close(o, r, GOOD) else UnsetDNS(o, r, GOOD);
               again.ok && !again.state.active && (again.state.file == o.file <==> Restorable(o, r.file))
  {
    hide Owned, Upstreams, Restorable, Run;
    RunStep(o, ds, steps, i);
    FeasibleOverRuns(o, ds, steps, i);
    var r := ds[i + 1];
    assert r.active && r.server == ds[i].server && r.closed == (ds[i].closed || steps[i].Closes?);
    hide Restore, RefreshUpstreams;
    TornRestore(o, r, r.file);
  }

  lemma RunStep(o: Origin, ds: seq<State>, steps: seq<Step>, i: nat)
    requires Run(o, ds, steps) && i < |steps|
    ensures i + 1 < |ds| && ds[i + 1] == Next(o, ds[i], steps[i]).state
  {
  }

  /******* Forwarding *******/

  /** Requests go to an open client with the remembered upstreams. */
  predicate Forwards(d: State) {
    d.attached == Client(d.upstreams, true)
  }

  /** The servers a step asks for when it gets as far as building a new client. */
  function Rebuilt(o: Origin, d: State, step: Step): Option<seq<Server>> {
    var exclude :=
      match step
      case SetsDNS(server, _, _) =>
        if !server.IsValid() then None else Some(if d.active then [server, d.server] else [server])
      case UnsetsDNS(_) => if d.active then Some([d.server]) else None
      case Closes(_) => None;
    if d.closed || exclude.None? || Upstreams(o, exclude.value) in [[], d.upstreams] then None
    else Some(Upstreams(o, exclude.value))
  }

  predicate Installs(o: Origin, d: State, step: Step) {
    Rebuilt(o, d, step).Some? && step.luck.attach.Attached?
  }

  predicate Breaks(o: Origin, d: State, step: Step) {
    Rebuilt(o, d, step).Some? && step.luck.attach.RouterFails?
  }

  /** Setting the router failed since the last new client went in. */
  predicate Damaged(o: Origin, ds: seq<State>, steps: seq<Step>, i: nat)
    requires i <= |steps| < |ds|
  {
    i > 0 && (Breaks(o, ds[i - 1], steps[i - 1])
              || (!Installs(o, ds[i - 1], steps[i - 1]) && Damaged(o, ds, steps, i - 1)))
  }

  lemma ForwardingStep(o: Origin, d: State, step: Step)
    ensures var n := Next(o, d, step).state;
            n.closed || Forwards(n) == (Installs(o, d, step) || (Forwards(d) && !Breaks(o, d, step)))
  {
    hide Owned, Upstreams, Managed;
  }

  /** Over every run, until the provider is closed, requests reach the remembered upstreams
      if and only if setting the router has not failed since the last new client went in. */
  lemma {:induction false} ForwardsIffUndamaged(o: Origin, ds: seq<State>, steps: seq<Step>, i: nat)
    requires Run(o, ds, steps) && i < |ds| && !ds[i].closed
    ensures Forwards(ds[i]) <==> !Damaged(o, ds, steps, i)
  {
    hide Next, Rebuilt, Upstreams;
    if i > 0 {
      RunStep(o, ds, steps, i - 1);
      StaysClosed(o, ds[i - 1], steps[i - 1]);
      ForwardsIffUndamaged(o, ds, steps, i - 1);
      ForwardingStep(o, ds[i - 1], steps[i - 1]);
    }
  }

  lemma StaysClosed(o: Origin, d: State, step: Step)
    ensures d.closed ==> Next(o, d, step).state.closed
  {
    hide Owned, Upstreams, Managed;
  }

  /** The failing family: setting the router fails. A refresh that then asks for the
      remembered upstreams is skipped, reports success and repairs nothing. */
  lemma FailedRouterIsNotRepaired(o: Origin, d: State, step: Step, exclude: seq<Addr>, attach: Attach)
    requires Forwards(d) && Breaks(o, d, step) && Upstreams(o, exclude) == d.upstreams != []
    ensures var broken := Next(o, d, step).state;
            && !Next(o, d, step).ok && !Forwards(broken)
            && RefreshUpstreams(o, broken, exclude, attach) == Outcome(true, broken)
  {
    hide Owned, Upstreams, Managed;
  }

  /******* The provider object *******/

  class DirectProvider {
    const origin: Origin
    var closed: bool
    var active: bool
    var server: Addr
    var upstreams: seq<Server>
    var attached: Client
    /** /etc/resolv.conf itself. */
    var file: File
    ghost var last: Option<Write>

    constructor (origin: Origin)
      ensures this.origin == origin && Initial(origin, Value())
    {
      this.origin := origin;
      closed, active, server := false, false, NoAddr;
      upstreams, file, last := Upstreams(origin, []), origin.file, None;
      attached := Client(Upstreams(origin, []), true);
    }

    ghost function Value(): State
      reads this
    {
      State(closed, active, server, upstreams, attached, file, last)
    }

    method Refresh(exclude: seq<Addr>, attach: Attach) returns (ok: bool)
      modifies this`upstreams, this`attached
      ensures Outcome(ok, Value()) == RefreshUpstreams(origin, old(Value()), exclude, attach)
    {
      var servers := new Server[|origin.servers|](i requires 0 <= i < |origin.servers| => origin.servers[i]);
      assert servers[..] == origin.servers;
      var n := FilterAddr(servers, exclude);
      var chosen := servers[..n];
      if chosen == [] {
        var fallback := new Server[|origin.fallback|](i requires 0 <= i < |origin.fallback| => origin.fallback[i]);
        assert fallback[..] == origin.fallback;
        var m := FilterAddr(fallback, exclude);
        chosen := fallback[..m];
      }
      var unique := DedupeServers(chosen);
      if unique == [] {
        return false;
      }
      if unique == upstreams {
        return true;
      }
      if closed || attach.Refused? {
        return false;
      }
      attached := Client(unique, attach.Attached?);
      if attach.RouterFails? {
        return false;
      }
      upstreams := unique;
      return true;
    }

    method Set(to: Addr, text: string, luck: Luck) returns (ok: bool)
      requires Apart(Value()) && FileOk(origin, Value())
      modifies this
      ensures Outcome(ok, Value()) == SetDNS(origin, old(Value()), to, text, luck)
      ensures ok ==> active && server == to && file.Some? && ('\n' !in text ==> NamesOnly(file.value, text))
      ensures ok ==> upstreams == Upstreams(origin, if old(active) then [to, old(server)] else [to])
      ensures Apart(Value())
      ensures FileOk(origin, Value())
    {
      hide Upstreams, Owned, FileOk, Apart, Managed, NamesOnly;
      if '\n' !in text {
        ManagedNamesServer(text);
      }
      ApartKept(origin, Value(), SetsDNS(to, text, luck));
      FileKept(origin, Value(), SetsDNS(to, text, luck));
      if !to.IsValid() || closed {
        return false;
      }
      var exclude := [to];
      if active {
        exclude := exclude + [server];
      }
      assert exclude == if active then [to, server] else [to];
      var refreshed := Refresh(exclude, luck.attach);
      if !refreshed {
        return false;
      }
      if luck.write.Failed? {
        file, last := luck.write.left, Some(luck.write);
        return false;
      }
      file, last, server, active := Some(Managed(text)), Some(Written), to, true;
      return true;
    }

    method RestoreIfOwned(luck: Luck) returns (ok: bool)
      modifies this`file, this`last
      ensures Outcome(ok, Value()) == Restore(origin, old(Value()), luck)
      ensures old(file).Some? && !Owned(old(file).value) ==> file == old(file)
    {
      if file.Some? && !luck.read {
        return false;
      }
      if file.Some? && !Owned(file.value) {
        return true;
      }
      if origin.file.Some? {
        if luck.write.Failed? {
          file, last := luck.write.left, Some(luck.write);
          return false;
        }
        file, last := origin.file, Some(Written);
        return true;
      }
      if file.Some? && !luck.remove {
        return false;
      }
      file, last := None, Some(Written);
      return true;
    }

    method Unset(luck: Luck) returns (ok: bool)
      requires Apart(Value()) && FileOk(origin, Value())
      modifies this
      ensures Outcome(ok, Value()) == UnsetDNS(origin, old(Value()), luck)
      ensures ok ==> !active && (old(active) ==> upstreams == Upstreams(origin, [old(server)]))
      ensures Apart(Value())
      ensures FileOk(origin, Value())
    {
      hide Upstreams, Owned, FileOk, Apart, RefreshUpstreams, Restore;
      ApartKept(origin, Value(), UnsetsDNS(luck));
      FileKept(origin, Value(), UnsetsDNS(luck));
      if closed {
        return false;
      }
      if !active {
        return true;
      }
      var restored := RestoreIfOwned(luck);
      RefreshedUpstreams(origin, Value(), [server], luck.attach);
      var refreshed := Refresh([server], luck.attach);
      ok := restored && refreshed;
      if ok {
        server, active := NoAddr, false;
      }
    }

    method Shutdown(luck: Luck) returns (ok: bool)
      requires Apart(Value()) && FileOk(origin, Value())
      modifies this
      ensures Outcome(ok, Value()) == Close(origin, old(Value()), luck)
      ensures closed && !attached.open && ok == !active && (old(closed) && !old(active) ==> Value() == old(Value()))
      ensures Apart(Value())
      ensures FileOk(origin, Value())
    {
      assert closed ==> !attached.open;
      hide Upstreams, Owned, FileOk, Apart, Restore;
      ApartKept(origin, Value(), Closes(luck));
      FileKept(origin, Value(), Closes(luck));
      if closed && !active {
        return true;
      }
      closed, attached := true, attached.(open := false);
      if !active {
        return true;
      }
      ok := RestoreIfOwned(luck);
      if ok {
        server, active := NoAddr, false;
      }
    }
  }
}
