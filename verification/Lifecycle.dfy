/** Ownership of native TUNs: who holds each one, and that each is closed once. */
module Lifecycle {
  import opened Netip

  /** The state behind the public default TUN: its identity, the native TUN it exposes
      and that TUN's source generation. */
  datatype DefaultTun = DefaultTun(state: nat, tun: nat, source: nat)

  datatype Exposure = Exposure(source: nat, tun: nat)

  /** Native TUNs are numbered in order of creation. `building` holds those created by
      BuildTun calls that have not finished. `history` lists every native TUN the
      default TUN was given, with its source generation. */
  datatype Sys = Sys(closed: bool, active: Option<DefaultTun>, sources: nat, states: nat,
                     regular: map<nat, nat>, handles: nat, building: set<nat>,
                     created: nat, closes: map<nat, nat>, history: seq<Exposure>)

  const NEW_SYSTEM := Sys(false, None, 0, 0, map[], 0, {}, 0, map[], [])

  function Closes(s: Sys, t: nat): nat {
    if t in s.closes then s.closes[t] else 0
  }

  function CloseNative(s: Sys, t: nat): Sys {
    s.(closes := s.closes[t := Closes(s, t) + 1])
  }

  function CreateNative(s: Sys): Sys {
    s.(created := s.created + 1)
  }

  /** How the calls inside one BuildDefaultTun turn out: options accepted, native TUN
      created, old link still there, replacement compatible, every later step done. */
  datatype Luck = Luck(accepted: bool, created: bool, linkUp: bool, compatible: bool, configured: bool)

  function Expose(s: Sys, state: nat, t: nat): Sys {
    var g := s.sources + 1;
    s.(sources := g, active := Some(DefaultTun(state, t, g)), history := s.history + [Exposure(g, t)])
  }

  function BuildDefault(s: Sys, luck: Luck): Sys {
    if !luck.accepted || s.closed then s
    else if s.active.None? then
      if !luck.created then s
      else
        var t := s.created;
        var built := Expose(CreateNative(s).(states := s.states + 1), s.states, t);
        if luck.configured then built else CloseNative(built.(active := None), t)
    else
      var d := s.active.value;
      if luck.linkUp then
        if luck.configured then s else CloseNative(s.(active := None), d.tun)
      else if !luck.created then s
      else
        var t := s.created;
        var made := CreateNative(s);
        if !luck.compatible then CloseNative(made, t)
        else if !luck.configured then CloseNative(CloseNative(made, t).(active := None), d.tun)
        else CloseNative(Expose(made, d.state, t), d.tun)
  }

  function CloseDefault(s: Sys, state: nat): Sys {
    if s.active.Some? && s.active.value.state == state then CloseNative(s.(active := None), s.active.value.tun) else s
  }

  function BeginTun(s: Sys, created: bool): Sys {
    if created then CreateNative(s).(building := s.building + {s.created}) else s
  }

  function FinishTun(s: Sys, t: nat, configured: bool): Sys {
    var done := s.(building := s.building - {t});
    if !configured || s.closed then CloseNative(done, t)
    else done.(regular := s.regular[s.handles := t], handles := s.handles + 1)
  }

  function CloseRegular(s: Sys, handle: nat): Sys {
    if handle in s.regular then CloseNative(s.(regular := s.regular - {handle}), s.regular[handle]) else s
  }

  function CloseSystem(s: Sys): Sys {
    if s.closed then s
    else
      s.(closed := true, active := None, regular := map[], closes := ClosedOnce(s.closes, Exposed(s)))
  }

  /** The native TUNs behind public handles. */
  function Exposed(s: Sys): set<nat> {
    (set h | h in s.regular :: s.regular[h]) + if s.active.Some? then {s.active.value.tun} else {}
  }

  function Members(ts: seq<nat>): set<nat> {
    set t | t in ts
  }

  /** One more close for each of these TUNs. */
  function ClosedOnce(closes: map<nat, nat>, all: set<nat>): map<nat, nat> {
    map t | t in closes.Keys + all :: (if t in closes then closes[t] else 0) + if t in all then 1 else 0
  }

  datatype Step =
    | BuildsDefault(luck: Luck)
    | ClosesDefault(state: nat)
    | BeginsTun(created: bool)
    | FinishesTun(tun: nat, configured: bool)
    | ClosesRegular(handle: nat)
    | ClosesSystem

  predicate Enabled(s: Sys, step: Step) {
    step.FinishesTun? ==> step.tun in s.building
  }

  function Next(s: Sys, step: Step): Sys {
    match step
    case BuildsDefault(luck) => BuildDefault(s, luck)
    case ClosesDefault(state) => CloseDefault(s, state)
    case BeginsTun(created) => BeginTun(s, created)
    case FinishesTun(t, configured) => FinishTun(s, t, configured)
    case ClosesRegular(h) => CloseRegular(s, h)
    case ClosesSystem => CloseSystem(s)
  }

  ghost predicate Run(ss: seq<Sys>) {
    && ss != [] && ss[0] == NEW_SYSTEM
    && forall i | 0 <= i < |ss| - 1 :: exists step :: Enabled(ss[i], step) && ss[i + 1] == Next(ss[i], step)
  }

  /******* Ownership *******/

  predicate ByDefault(s: Sys, t: nat) {
    s.active.Some? && s.active.value.tun == t
  }

  predicate ByHandle(regular: map<nat, nat>, h: nat, t: nat) {
    h in regular && regular[h] == t
  }

  predicate Handled(regular: map<nat, nat>, t: nat) {
    exists h | h in regular :: ByHandle(regular, h, t)
  }

  predicate Held(s: Sys, t: nat) {
    ByDefault(s, t) || t in s.building || Handled(s.regular, t)
  }

  /** No native TUN has two holders. */
  ghost predicate OneHolder(s: Sys) {
    && (forall t | t in s.building :: !ByDefault(s, t))
    && (forall h, t | ByHandle(s.regular, h, t) :: !ByDefault(s, t) && t !in s.building)
    && (forall h, i, t | ByHandle(s.regular, h, t) && ByHandle(s.regular, i, t) :: h == i)
  }

  /** Created native TUNs are held, or closed exactly once; nothing else is ever closed. */
  ghost predicate Accounted(s: Sys) {
    forall t: nat ::
      if t < s.created then (if Held(s, t) then Closes(s, t) == 0 else Closes(s, t) == 1)
      else !Held(s, t) && Closes(s, t) == 0
  }

  ghost predicate HistoryOk(s: Sys) {
    && (forall i, j | 0 <= i < j < |s.history| ::
        s.history[i].source < s.history[j].source && s.history[i].tun < s.history[j].tun)
    && (forall i | 0 <= i < |s.history| :: s.history[i].source <= s.sources && s.history[i].tun < s.created)
    && (s.active.Some? ==>
          s.history != [] && s.history[|s.history| - 1] == Exposure(s.active.value.source, s.active.value.tun))
  }

  ghost predicate Sane(s: Sys) {
    && (s.closed ==> s.active == None && s.regular == map[])
    && (forall h | h in s.regular :: h < s.handles)
    && (s.active.Some? ==> s.active.value.state < s.states)
  }

  ghost predicate Invariant(s: Sys) {
    OneHolder(s) && Accounted(s) && HistoryOk(s) && Sane(s)
  }

  /******* Every step keeps it *******/

  /** Giving up the one holder of a TUN and closing it. */
  lemma Released(s: Sys, r: Sys, t: nat)
    requires Invariant(s) && Held(s, t) && r.created == s.created && r.closes == s.closes
    requires forall u: nat :: Held(r, u) <==> Held(s, u) && u != t
    ensures Accounted(CloseNative(r, t))
  {
    var c := CloseNative(r, t);
    assert forall u: nat :: Held(c, u) == Held(r, u) && Closes(c, u) == Closes(s, u) + (if u == t then 1 else 0);
  }

  lemma DefaultKeeps(s: Sys, luck: Luck)
    requires Invariant(s)
    ensures Invariant(BuildDefault(s, luck))
  {
    hide HistoryOk, Accounted;
    DefaultHistory(s, luck);
    DefaultAccounted(s, luck);
    var r := BuildDefault(s, luck);
    assert r.regular == s.regular && r.building == s.building;
    NewIsFree(s);
  }

  /** A TUN about to be created has no holder yet. */
  lemma NewIsFree(s: Sys)
    requires Invariant(s)
    ensures s.created !in s.building && !ByDefault(s, s.created) && forall h :: !ByHandle(s.regular, h, s.created)
    ensures Closes(s, s.created) == 0
  {
    assert !Held(s, s.created);
  }

  lemma DefaultHistory(s: Sys, luck: Luck)
    requires HistoryOk(s)
    ensures HistoryOk(BuildDefault(s, luck))
  {
  }

  lemma DefaultAccounted(s: Sys, luck: Luck)
    requires Invariant(s)
    ensures Accounted(BuildDefault(s, luck))
  {
    var r := BuildDefault(s, luck);
    NewIsFree(s);
    forall t: nat
      ensures if t < r.created then (if Held(r, t) then Closes(r, t) == 0 else Closes(r, t) == 1)
              else !Held(r, t) && Closes(r, t) == 0
    {
      assert Held(s, t) ==> t < s.created;
    }
  }

  /** When a build has a native TUN to configure: the active one, or one it creates. */
  predicate GetsTun(s: Sys, luck: Luck) {
    && luck.accepted && !s.closed
    && if s.active.None? then luck.created else luck.linkUp || (luck.created && luck.compatible)
  }

  /** What a build leaves. With the old link up nothing changes; otherwise success exposes
      the new TUN under a new generation and the former one is closed once. A build that
      cannot configure its TUN gives up the active one too; any other failure keeps it. Every
      TUN that a failed build created is closed once. */
  lemma BuildOutcome(s: Sys, luck: Luck)
    requires Invariant(s)
    ensures var r := BuildDefault(s, luck);
            && (GetsTun(s, luck) && luck.configured && s.active.Some? && luck.linkUp ==> r == s)
            && (GetsTun(s, luck) && luck.configured && (s.active.None? || !luck.linkUp) ==>
                  && r.active.Some? && r.active.value.tun == s.created && r.created == s.created + 1
                  && r.active.value.source > s.sources && Closes(r, s.created) == 0
                  && (s.active.Some? ==>
                        Closes(r, s.active.value.tun) == 1 && r.active.value.state == s.active.value.state)
                  && (s.active.None? ==> r.active.value.state == s.states < r.states))
            && (GetsTun(s, luck) && !luck.configured ==>
                  r.active.None? && (s.active.Some? ==> Closes(r, s.active.value.tun) == 1))
            && (!GetsTun(s, luck) ==> r.active == s.active)
            && (!GetsTun(s, luck) || !luck.configured ==>
                  forall t | s.created <= t < r.created :: Closes(r, t) == 1)
  {
    hide HistoryOk;
    NewIsFree(s);
    if s.active.Some? {
      assert Held(s, s.active.value.tun);
    }
  }

  lemma CloseDefaultKeeps(s: Sys, state: nat)
    requires Invariant(s)
    ensures Invariant(CloseDefault(s, state))
  {
    if s.active.Some? && s.active.value.state == state {
      var r := s.(active := None);
      Released(s, r, s.active.value.tun);
    }
  }

  lemma BeginKeeps(s: Sys, created: bool)
    requires Invariant(s)
    ensures Invariant(BeginTun(s, created))
  {
    if created {
      NewIsFree(s);
      var r := BeginTun(s, created);
      assert forall t: nat :: Held(r, t) <==> Held(s, t) || t == s.created;
    }
  }

  lemma FinishKeeps(s: Sys, t: nat, configured: bool)
    requires Invariant(s) && t in s.building
    ensures Invariant(FinishTun(s, t, configured))
  {
    var r := s.(building := s.building - {t});
    assert Held(s, t);
    if !configured || s.closed {
      Released(s, r, t);
    } else {
      var f := FinishTun(s, t, configured);
      assert forall h, u :: ByHandle(f.regular, h, u) <==> ByHandle(s.regular, h, u) || (h == s.handles && u == t);
      forall u: nat ensures Held(f, u) <==> Held(s, u) {
        assert u == t ==> ByHandle(f.regular, s.handles, u);
      }
    }
  }

  lemma CloseRegularKeeps(s: Sys, handle: nat)
    requires Invariant(s)
    ensures Invariant(CloseRegular(s, handle))
  {
    if handle in s.regular {
      var t, r := s.regular[handle], s.(regular := s.regular - {handle});
      assert forall h, u :: ByHandle(r.regular, h, u) <==> ByHandle(s.regular, h, u) && h != handle;
      assert ByHandle(s.regular, handle, t);
      Released(s, r, t);
    }
  }

  lemma CloseSystemKeeps(s: Sys)
    requires Invariant(s)
    ensures Invariant(CloseSystem(s))
  {
    var r := CloseSystem(s);
    if !s.closed {
      var held := set h | h in s.regular :: s.regular[h];
      forall t: nat
        ensures if t < r.created then (if Held(r, t) then Closes(r, t) == 0 else Closes(r, t) == 1)
                else !Held(r, t) && Closes(r, t) == 0
      {
        assert forall h :: !ByHandle(r.regular, h, t);
        assert t in held <==> exists h | h in s.regular :: ByHandle(s.regular, h, t);
        assert Held(s, t) <==> t in held || ByDefault(s, t) || t in s.building;
        assert Held(r, t) <==> t in s.building;
        assert Closes(r, t) == Closes(s, t) + if t in held || ByDefault(s, t) then 1 else 0;
      }
    }
  }

  lemma StepKeeps(s: Sys, step: Step)
    requires Invariant(s) && Enabled(s, step)
    ensures Invariant(Next(s, step))
  {
    match step
    case BuildsDefault(luck) => DefaultKeeps(s, luck);
    case ClosesDefault(state) => CloseDefaultKeeps(s, state);
    case BeginsTun(created) => BeginKeeps(s, created);
    case FinishesTun(t, configured) => FinishKeeps(s, t, configured);
    case ClosesRegular(h) => CloseRegularKeeps(s, h);
    case ClosesSystem => CloseSystemKeeps(s);
  }

  lemma {:induction false} InvariantHolds(ss: seq<Sys>, i: nat)
    requires Run(ss) && i < |ss|
    ensures Invariant(ss[i])
  {
    if i > 0 {
      InvariantHolds(ss, i - 1);
      var step :| Enabled(ss[i - 1], step) && ss[i] == Next(ss[i - 1], step);
      StepKeeps(ss[i - 1], step);
    }
  }

  /** In every state of every run each native TUN ever created is held by exactly one
      live holder and never closed, or held by none and closed exactly once. */
  lemma ClosedExactlyOnce(ss: seq<Sys>, i: nat, t: nat)
    requires Run(ss) && i < |ss|
    ensures var s := ss[i];
            && (t < s.created ==> Closes(s, t) == (if Held(s, t) then 0 else 1))
            && (s.created <= t ==> !Held(s, t) && Closes(s, t) == 0)
            && OneHolder(s)
            && (s.closed ==> forall u | Held(s, u) :: u in s.building)
  {
    InvariantHolds(ss, i);
  }

  lemma SourceStep(s: Sys, step: Step)
    requires Invariant(s) && Enabled(s, step)
    ensures s.history <= Next(s, step).history && s.sources <= Next(s, step).sources
    ensures var r := Next(s, step);
            s.active.Some? && r.active.Some? ==>
              && s.active.value.source <= r.active.value.source
              && (s.active.value.source == r.active.value.source <==> s.active.value.tun == r.active.value.tun)
              && s.active.value.state == r.active.value.state
  {
  }

  lemma RunStep(ss: seq<Sys>, i: nat)
    requires Run(ss) && i + 1 < |ss|
    ensures ss[i].history <= ss[i + 1].history
  {
    InvariantHolds(ss, i);
    hide Invariant;
    var step :| Enabled(ss[i], step) && ss[i + 1] == Next(ss[i], step);
    hide Next, Run;
    SourceStep(ss[i], step);
  }

  lemma {:induction false} HistoryGrows(ss: seq<Sys>, i: nat, j: nat)
    requires Run(ss) && i <= j < |ss|
    ensures ss[i].history <= ss[j].history
  {
    hide Run;
    if i < j {
      HistoryGrows(ss, i, j - 1);
      RunStep(ss, j - 1);
    }
  }

  lemma ExposedApart(s: Sys, r: Sys)
    requires HistoryOk(s) && HistoryOk(r) && s.history <= r.history && s.active.Some? && r.active.Some?
    ensures s.active.value.source <= r.active.value.source
    ensures s.active.value.source == r.active.value.source <==> s.active.value.tun == r.active.value.tun
  {
    var n, m := |s.history| - 1, |r.history| - 1;
    assert r.history[n] == s.history[n];
    assert n == m || (r.history[n].source < r.history[m].source && r.history[n].tun < r.history[m].tun);
  }

  /** Between any two moments of a run the exposed source generation never goes back,
      and it is the same exactly when the exposed native TUN is the same. */
  lemma SourcesFollowNatives(ss: seq<Sys>, i: nat, j: nat)
    requires Run(ss) && i <= j < |ss| && ss[i].active.Some? && ss[j].active.Some?
    ensures ss[i].active.value.source <= ss[j].active.value.source
    ensures ss[i].active.value.source == ss[j].active.value.source <==> ss[i].active.value.tun == ss[j].active.value.tun
  {
    hide Run, OneHolder, Accounted, Sane, HistoryOk;
    InvariantHolds(ss, i);
    InvariantHolds(ss, j);
    HistoryGrows(ss, i, j);
    ExposedApart(ss[i], ss[j]);
  }

  /******* The objects themselves *******/

  /** The fields of System that own TUNs. `created` and `closes` stand for the native
      TUN objects. */
  class System {
    var closed: bool
    var active: Option<DefaultTun>
    var sources: nat
    var states: nat
    var regular: map<nat, nat>
    var handles: nat
    var created: nat
    var closes: map<nat, nat>
    ghost var building: set<nat>
    ghost var history: seq<Exposure>

    constructor ()
      ensures Value() == NEW_SYSTEM
    {
      closed, active, sources, states := false, None, 0, 0;
      regular, handles, created, closes := map[], 0, 0, map[];
      building, history := {}, [];
    }

    ghost function Value(): Sys
      reads this
    {
      Sys(closed, active, sources, states, regular, handles, building, created, closes, history)
    }

    method CreateTun() returns (t: nat)
      modifies this`created
      ensures t == old(created) && Value() == CreateNative(old(Value()))
    {
      t := created;
      created := created + 1;
    }

    method CloseTun(t: nat)
      modifies this`closes
      ensures Value() == CloseNative(old(Value()), t)
    {
      closes := closes[t := (if t in closes then closes[t] else 0) + 1];
    }

    /** The failure path of a build: the replacement goes first, then the active state. */
    method Fail(replacement: Option<nat>)
      requires active.Some?
      modifies this
      ensures Value() ==
              (var s := if replacement.Some? then CloseNative(old(Value()), replacement.value) else old(Value());
                          CloseNative(s.(active := None), old(active).value.tun))
    {
      if replacement.Some? {
        CloseTun(replacement.value);
      }
      var t := active.value.tun;
      active := None;
      CloseTun(t);
    }

    method BuildDefaultTun(luck: Luck) returns (tun: Option<DefaultTun>)
      requires Invariant(Value())
      modifies this
      ensures Value() == BuildDefault(old(Value()), luck) && Invariant(Value())
      ensures tun.Some? ==> active == tun
      ensures tun.Some? <==>
                && luck.accepted && !closed && luck.configured
                && if old(active).None? then luck.created else luck.linkUp || (luck.created && luck.compatible)
      ensures tun.Some? && old(active).Some? && luck.linkUp ==> Value() == old(Value())
      ensures tun.Some? && (old(active).None? || !luck.linkUp) ==>
                && tun.value.tun == old(created) && tun.value.source > old(sources)
                && (old(active).Some? ==>
                      Closes(Value(), old(active).value.tun) == 1 && tun.value.state == old(active).value.state)
      ensures tun.None? ==>
                && (active == old(active) || (active.None? && Closes(Value(), old(active).value.tun) == 1))
                && forall t | old(created) <= t < created :: Closes(Value(), t) == 1
    {
      hide Invariant;
      DefaultKeeps(Value(), luck);
      BuildOutcome(Value(), luck);
      if !luck.accepted || closed {
        return None;
      }
      var rebuilding := active.Some?;
      if !rebuilding {
        if !luck.created {
          return None;
        }
        var t := CreateTun();
        sources := sources + 1;
        history := history + [Exposure(sources, t)];
        active := Some(DefaultTun(states, t, sources));
        states := states + 1;
      }
      var replacement: Option<nat> := None;
      if rebuilding && !luck.linkUp {
        if !luck.created {
          return None;
        }
        var t := CreateTun();
        if !luck.compatible {
          CloseTun(t);
          return None;
        }
        replacement := Some(t);
      }
      if !luck.configured {
        Fail(replacement);
        return None;
      }
      if replacement.Some? {
        var before := active.value.tun;
        sources := sources + 1;
        history := history + [Exposure(sources, replacement.value)];
        active := Some(active.value.(source := sources, tun := replacement.value));
        CloseTun(before);
      }
      return active;
    }

    method CloseDefaultTun(state: nat)
      requires Invariant(Value())
      modifies this
      ensures Value() == CloseDefault(old(Value()), state) && Invariant(Value())
      ensures if old(active).Some? && old(active).value.state == state
              then active.None? && Closes(Value(), old(active).value.tun) == 1 && regular == old(regular)
              else Value() == old(Value())
    {
      CloseDefaultKeeps(Value(), state);
      if active.Some? {
        assert Held(Value(), active.value.tun);
      }
      if active.Some? && active.value.state == state {
        var t := active.value.tun;
        active := None;
        CloseTun(t);
      }
    }

    /** BuildTun up to the moment it holds a native TUN. */
    method BeginBuildTun(ok: bool) returns (t: nat)
      requires Invariant(Value())
      modifies this
      ensures Value() == BeginTun(old(Value()), ok) && Invariant(Value())
      ensures ok ==> t in building && t == old(created) && Closes(Value(), t) == 0
    {
      NewIsFree(Value());
      BeginKeeps(Value(), ok);
      t := created;
      if ok {
        t := CreateTun();
        building := building + {t};
      }
    }

    /** The rest of BuildTun; the system may have been closed in between. */
    method FinishBuildTun(t: nat, configured: bool) returns (handle: Option<nat>)
      requires Invariant(Value()) && t in building
      modifies this
      ensures Value() == FinishTun(old(Value()), t, configured) && Invariant(Value())
      ensures handle.Some? ==> ByHandle(regular, handle.value, t)
      ensures handle.Some? <==> configured && !closed
      ensures handle.Some? ==> handle.value !in old(regular) && regular == old(regular)[handle.value := t]
      ensures Closes(Value(), t) == if handle.Some? then 0 else 1
    {
      assert Held(Value(), t);
      FinishKeeps(Value(), t, configured);
      building := building - {t};
      if !configured || closed {
        CloseTun(t);
        return None;
      }
      regular := regular[handles := t];
      handles := handles + 1;
      return Some(handles - 1);
    }

    method CloseRegularTun(handle: nat)
      requires Invariant(Value())
      modifies this
      ensures Value() == CloseRegular(old(Value()), handle) && Invariant(Value())
      ensures if handle in old(regular)
              then regular == old(regular) - {handle} && Closes(Value(), old(regular)[handle]) == 1
                   && active == old(active)
              else Value() == old(Value())
    {
      CloseRegularKeeps(Value(), handle);
      if handle in regular {
        assert ByHandle(regular, handle, regular[handle]) && Held(Value(), regular[handle]);
      }
      if handle in regular {
        var t := regular[handle];
        regular := regular - {handle};
        CloseTun(t);
      }
    }

    method CloseAll(tuns: seq<nat>)
      requires forall i, j | 0 <= i < j < |tuns| :: tuns[i] != tuns[j]
      modifies this`closes
      ensures closes == ClosedOnce(old(closes), Members(tuns))
    {
      for i := 0 to |tuns|
        invariant closes == ClosedOnce(old(closes), Members(tuns[..i]))
      {
        hide ClosedOnce, Members;
        CloseOneMore(old(closes), tuns, i);
        CloseTun(tuns[i]);
      }
      assert tuns[..|tuns|] == tuns;
    }

    /** Takes every native TUN out of its state, then closes them one by one. */
    method Close()
      requires Invariant(Value())
      modifies this
      ensures Value() == CloseSystem(old(Value())) && Invariant(Value())
      ensures closed && active.None? && regular == map[]
      ensures old(active).Some? ==> Closes(Value(), old(active).value.tun) == 1
      ensures forall h | h in old(regular) :: Closes(Value(), old(regular)[h]) == 1
    {
      ghost var s := Value();
      CloseSystemKeeps(s);
      assert OneHolder(s);
      hide Invariant, ClosedOnce, Accounted, HistoryOk, Sane, Members, Exposed, Handled;
      if closed {
        EverythingClosed(s);
        return;
      }
      closed := true;
      var held := CollectTuns();
      hide OneHolder;
      var tuns: seq<nat> := (if active.Some? then [active.value.tun] else []) + held;
      TunsApart(s, held, tuns);
      active := None;
      regular := map[];
      CloseAll(tuns);
      EverythingClosed(s);
    }

    method CollectTuns() returns (held: seq<nat>)
      requires forall h, i, t | ByHandle(regular, h, t) && ByHandle(regular, i, t) :: h == i
      ensures forall t :: t in held <==> Handled(regular, t)
      ensures forall i, j | 0 <= i < j < |held| :: held[i] != held[j]
    {
      var todo := regular.Keys;
      held := [];
      while todo != {}
        invariant todo <= regular.Keys
        invariant forall t :: t in held <==> exists h :: ByHandle(regular, h, t) && h !in todo
        invariant forall i, j | 0 <= i < j < |held| :: held[i] != held[j]
        decreases todo
      {
        var h :| h in todo;
        assert ByHandle(regular, h, regular[h]);
        assert forall g | ByHandle(regular, g, regular[h]) :: g == h;
        assert regular[h] !in held;
        held := held + [regular[h]];
        todo := todo - {h};
      }
    }
  }

  lemma EverythingClosed(s: Sys)
    requires Invariant(s)
    ensures var r := CloseSystem(s);
            && r.closed && r.active.None? && r.regular == map[]
            && (s.active.Some? ==> Closes(r, s.active.value.tun) == 1)
            && (forall h | h in s.regular :: Closes(r, s.regular[h]) == 1)
  {
    if !s.closed {
      if s.active.Some? {
        assert Held(s, s.active.value.tun) && s.active.value.tun in Exposed(s);
      }
      forall h | h in s.regular ensures Closes(CloseSystem(s), s.regular[h]) == 1 {
        assert ByHandle(s.regular, h, s.regular[h]) && Held(s, s.regular[h]) && s.regular[h] in Exposed(s);
      }
    }
  }

  lemma CloseOneMore(closes: map<nat, nat>, tuns: seq<nat>, i: nat)
    requires i < |tuns| && forall j, k | 0 <= j < k < |tuns| :: tuns[j] != tuns[k]
    ensures var before, t := ClosedOnce(closes, Members(tuns[..i])), tuns[i];
            ClosedOnce(closes, Members(tuns[..i + 1])) == before[t := (if t in before then before[t] else 0) + 1]
  {
    assert tuns[..i + 1] == tuns[..i] + [tuns[i]];
    assert tuns[i] !in tuns[..i];
  }

  lemma TunsApart(s: Sys, held: seq<nat>, tuns: seq<nat>)
    requires OneHolder(s) && tuns == (if s.active.Some? then [s.active.value.tun] else []) + held
    requires forall t :: t in held <==> Handled(s.regular, t)
    requires forall i, j | 0 <= i < j < |held| :: held[i] != held[j]
    ensures forall i, j | 0 <= i < j < |tuns| :: tuns[i] != tuns[j]
    ensures Members(tuns) == Exposed(s)
  {
    forall t ensures t in (set h | h in s.regular :: s.regular[h]) <==> t in held {
      if t in held {
        var h :| h in s.regular && ByHandle(s.regular, h, t);
      }
      if t in (set h | h in s.regular :: s.regular[h]) {
        var h :| h in s.regular && s.regular[h] == t;
        assert ByHandle(s.regular, h, t);
      }
    }
    forall i | 0 <= i < |held| ensures !ByDefault(s, held[i]) {
      assert held[i] in held;
    }
  }
}
