/** The route-monitor protocol: the event loop, the kernel's event source, the timer
    and the manager's other callers, interleaved step by step. The main table is
    represented by the number of changes made to it, and a safe table by the number of
    the main table it was copied from. */
module Protocol {
  import opened Netip
  import opened Monitor

  /** Where the loop is: at its select statement, waiting for the manager's lock to
      install guards, past a fired timer, inside a refresh, or gone. */
  datatype Pc = AtSelect | Beginning(lost: bool) | Fired | Refreshing(snapshot: Option<nat>) | Stopped

  datatype Op = DoApply(strict: bool) | DoRefresh | DoRollback

  datatype Lock = Free | Monitoring | Calling(op: Op, snapshot: Option<nat>)

  datatype Applied = Nothing | StrictPolicy | OpenPolicy

  /** `Partial` is what a failed Apply, Refresh or Rollback may leave behind. */
  datatype SafeTable = Copy(version: nat) | Partial

  /** The open channel holds the changes after `delivered`, up to the newest one, or up
      to `limit` when the subscription broke there; then its close is still to come.
      `abandoned` remembers that a caller's operation failed part way and that nothing
      has completed since. */
  datatype World = World(loop: Loop, pc: Pc, version: nat, delivered: nat, limit: Option<nat>,
                         lock: Lock, applied: Applied, safe: SafeTable, abandoned: bool, closed: bool)

  datatype Step =
    | MainChanges
    | Breaks(limit: nat)
    | Delivers
    | DeliversOther
    | DeliversClose
    | Begins(ok: bool)
    | Fires
    | Resubscribes(ok: bool)
    | StartsRefresh
    | TakesSnapshot
    | Refreshes
    | RefreshFails(partial: bool)
    | Calls(op: Op)
    | CallSnapshots
    | CallSucceeds
    | CallFails(partial: bool)
    | Closes
    | Stops

  function Available(w: World): nat {
    if w.limit.Some? then w.limit.value else w.version
  }

  predicate Enabled(w: World, s: Step) {
    match s
    case MainChanges => true
    case Breaks(limit) => w.loop.subscribed && w.limit.None? && w.delivered <= limit <= w.version
    case Delivers => w.pc == AtSelect && w.loop.subscribed && w.delivered < Available(w)
    case DeliversOther => w.pc == AtSelect && w.loop.subscribed
    case DeliversClose => w.pc == AtSelect && w.loop.subscribed && w.limit == Some(w.delivered)
    case Begins(ok) => w.pc.Beginning? && w.lock == Free
    case Fires => w.pc == AtSelect && w.loop.timer != Off
    case Resubscribes(ok) => w.pc == Fired && !w.loop.subscribed
    case StartsRefresh => w.pc == Fired && w.loop.subscribed && w.loop.pending && w.lock == Free
    case TakesSnapshot => w.pc == Refreshing(None)
    case Refreshes => w.pc.Refreshing? && w.pc.snapshot.Some?
    case RefreshFails(partial) => w.pc.Refreshing?
    case Calls(op) => w.lock == Free && !w.closed
    case CallSnapshots => w.lock.Calling? && w.lock.snapshot.None? && !w.lock.op.DoRollback?
    case CallSucceeds =>
      && w.lock.Calling?
      && (w.lock.op.DoRollback? || w.lock.snapshot.Some?)
      && (w.lock.op.DoRefresh? ==> w.applied != Nothing)
    case CallFails(partial) => w.lock.Calling?
    case Closes => w.lock == Free
    case Stops => w.pc == AtSelect && w.closed
  }

  function Next(w: World, s: Step): World
    requires Enabled(w, s)
  {
    match s
    case MainChanges => w.(version := w.version + 1)
    case Breaks(limit) => w.(limit := Some(limit))
    case Delivers =>
      if w.loop.pending then w.(delivered := w.delivered + 1)
      else w.(delivered := w.delivered + 1, loop := Noticed(w.loop), pc := Beginning(false))
    case DeliversOther => w.(loop := AfterUpdate(w.loop, false, true))
    case DeliversClose =>
      var l := w.loop.(subscribed := false);
      if l.pending then w.(loop := Begun(l, true, true), limit := None)
      else w.(loop := Noticed(l), pc := Beginning(true), limit := None)
    case Begins(ok) => w.(loop := Begun(w.loop, w.pc.lost, ok), pc := AtSelect)
    case Fires => w.(loop := w.loop.(timer := Off), pc := Fired)
    case Resubscribes(ok) =>
      if ok then w.(loop := w.loop.(subscribed := true), delivered := w.version, limit := None)
      else w.(loop := w.loop.(timer := Retry), pc := AtSelect)
    case StartsRefresh =>
      if w.closed || w.applied != OpenPolicy then w.(loop := w.loop.(pending := false), pc := AtSelect)
      else w.(pc := Refreshing(None), lock := Monitoring)
    case TakesSnapshot => w.(pc := Refreshing(Some(w.version)))
    case Refreshes =>
      w.(loop := w.loop.(pending := false), pc := AtSelect, lock := Free,
         safe := Copy(w.pc.snapshot.value), abandoned := false)
    case RefreshFails(partial) =>
      w.(loop := w.loop.(timer := Retry), pc := AtSelect, lock := Free, safe := if partial then Partial else w.safe)
    case Calls(op) => w.(lock := Calling(op, None))
    case CallSnapshots => w.(lock := Calling(w.lock.op, Some(w.version)))
    case CallSucceeds =>
      if w.lock.op.DoApply? then
        w.(lock := Free, applied := if w.lock.op.strict then StrictPolicy else OpenPolicy,
           safe := Copy(w.lock.snapshot.value), abandoned := false)
      else if w.lock.op.DoRefresh? then
        w.(lock := Free, safe := Copy(w.lock.snapshot.value), abandoned := false)
      else
        w.(lock := Free, applied := Nothing, safe := Partial, abandoned := false)
    case CallFails(partial) =>
      if partial then w.(lock := Free, safe := Partial, abandoned := true) else w.(lock := Free)
    case Closes => w.(closed := true)
    case Stops => w.(pc := Stopped)
  }

  predicate Initial(w: World) {
    && w.loop == Loop(false, Off, true) && w.pc == AtSelect
    && w.delivered == w.version && w.limit == None
    && w.lock == Free && w.applied == Nothing && w.safe == Partial && !w.abandoned && !w.closed
  }

  ghost predicate Run(ws: seq<World>) {
    && ws != [] && Initial(ws[0])
    && forall i | 0 <= i < |ws| - 1 :: exists s :: Enabled(ws[i], s) && ws[i + 1] == Next(ws[i], s)
  }

  /******* The invariant *******/

  predicate ChannelOk(w: World) {
    && w.delivered <= Available(w) <= w.version
    && (!w.loop.subscribed ==> w.loop.pending && w.limit == None)
  }

  predicate LoopOk(w: World) {
    match w.pc
    case AtSelect => Armed(w.loop) && (w.loop.timer != Off ==> w.loop.pending)
    case Beginning(lost) => w.loop.pending && w.loop.timer == Off && w.loop.subscribed == !lost
    case Fired => w.loop.pending && w.loop.timer == Off
    case Refreshing(snapshot) => w.loop.pending && w.loop.subscribed && w.loop.timer == Off
    case Stopped => w.closed
  }

  /** A copy taken at version `n` misses nothing that was delivered, unless a refresh is pending. */
  predicate CoversDelivered(w: World, n: nat) {
    n <= w.version && (!w.loop.pending ==> w.delivered <= n)
  }

  predicate CopiesOk(w: World) {
    && (w.lock == Monitoring <==> w.pc.Refreshing?)
    && (w.pc.Refreshing? && w.pc.snapshot.Some? ==> w.delivered <= w.pc.snapshot.value <= w.version)
    && (w.lock.Calling? && w.lock.snapshot.Some? ==> CoversDelivered(w, w.lock.snapshot.value))
    && (w.safe.Copy? && w.applied == OpenPolicy && !w.closed ==> CoversDelivered(w, w.safe.version))
    && (w.safe.Partial? && w.applied == OpenPolicy && !w.closed && !w.abandoned ==> w.loop.pending)
    && (w.abandoned ==> w.safe.Partial?)
  }

  predicate Invariant(w: World) {
    ChannelOk(w) && LoopOk(w) && CopiesOk(w)
  }

  lemma InvariantKept(w: World, s: Step)
    requires Invariant(w) && Enabled(w, s)
    ensures Invariant(Next(w, s))
  {
  }

  lemma {:induction false} InvariantHolds(ws: seq<World>, i: nat)
    requires Run(ws) && i < |ws|
    ensures Invariant(ws[i])
  {
    if i > 0 {
      InvariantHolds(ws, i - 1);
      var s :| Enabled(ws[i - 1], s) && ws[i] == Next(ws[i - 1], s);
      InvariantKept(ws[i - 1], s);
    }
  }

  /** The subscription is lost: its close was delivered and no new one is in place. */
  predicate Undelivered(w: World) {
    w.loop.subscribed && (w.delivered < Available(w) || w.limit.Some?)
  }

  /** A change still to be seen, or one seen and still to be acted on. */
  predicate WorkAhead(w: World) {
    w.loop.pending || Undelivered(w)
  }

  /** No change is lost. In every state of every run, when the loop is at its select
      statement a pending change or a lost subscription has its timer armed. Under a
      non-strict policy a safe table that is not a copy of the present main table implies
      an event still to be delivered or a refresh still to come, if and only if no
      operation was abandoned part way, unless such work lies ahead anyway. */
  lemma NoChangeIsLost(ws: seq<World>, i: nat)
    requires Run(ws) && i < |ws|
    ensures var w := ws[i];
            && (w.pc == AtSelect ==> Armed(w.loop))
            && (!w.loop.subscribed ==> w.loop.pending)
            && (!w.closed && w.applied == OpenPolicy ==>
                  ((w.safe != Copy(w.version) ==> WorkAhead(w)) <==> (!w.abandoned || WorkAhead(w))))
  {
    InvariantHolds(ws, i);
  }

  /** The failing family at its smallest: a caller's refresh that fails half way leaves a
      half-built safe table, and nothing is under way to finish it. */
  lemma AbandonedRefreshIsNotRepaired(w: World)
    requires Initial(w)
    ensures var steps := [Calls(DoApply(false)), CallSnapshots, CallSucceeds, Calls(DoRefresh), CallFails(true)];
            && Follows(w, steps)
            && var v := After(w, steps);
               v.applied == OpenPolicy && v.safe == Partial && v.abandoned && v.loop.timer == Off && !WorkAhead(v)
  {
    hide Follows, After;
    var w1 := Next(w, Calls(DoApply(false)));
    var w2 := Next(w1, CallSnapshots);
    var w3 := Next(w2, CallSucceeds);
    var w4 := Next(w3, Calls(DoRefresh));
    After1(w4, CallFails(true));
    AfterCons(w3, Calls(DoRefresh), [CallFails(true)]);
    AfterCons(w2, CallSucceeds, [Calls(DoRefresh)] + [CallFails(true)]);
    AfterCons(w1, CallSnapshots, [CallSucceeds] + ([Calls(DoRefresh)] + [CallFails(true)]));
    AfterCons(w, Calls(DoApply(false)), [CallSnapshots] + ([CallSucceeds] + ([Calls(DoRefresh)] + [CallFails(true)])));
    assert [Calls(DoApply(false))] + ([CallSnapshots] + ([CallSucceeds] + ([Calls(DoRefresh)] + [CallFails(true)])))
        == [Calls(DoApply(false)), CallSnapshots, CallSucceeds, Calls(DoRefresh), CallFails(true)];
  }

  /******* Turns of the loop *******/

  predicate Follows(w: World, steps: seq<Step>)
    decreases |steps|
  {
    steps == [] || (Enabled(w, steps[0]) && Follows(Next(w, steps[0]), steps[1..]))
  }

  function After(w: World, steps: seq<Step>): World
    requires Follows(w, steps)
    decreases |steps|
  {
    if steps == [] then w else After(Next(w, steps[0]), steps[1..])
  }

  lemma After1(w: World, s: Step)
    requires Enabled(w, s)
    ensures Follows(w, [s]) && After(w, [s]) == Next(w, s)
  {
    assert [s][1..] == [];
  }

  lemma AfterCons(w: World, s: Step, rest: seq<Step>)
    requires Enabled(w, s) && Follows(Next(w, s), rest)
    ensures Follows(w, [s] + rest) && After(w, [s] + rest) == After(Next(w, s), rest)
  {
    assert ([s] + rest)[1..] == rest;
  }

  /** The steps of one turn add up to what the loop's methods compute. */
  lemma UpdateTurn(w: World, began: bool)
    requires Invariant(w) && w.lock == Free && Enabled(w, Delivers)
    ensures var steps := [Delivers] + if w.loop.pending then [] else [Begins(began)];
            Follows(w, steps) && After(w, steps).loop == AfterUpdate(w.loop, true, began)
            && After(w, steps).pc == AtSelect
  {
    var v := Next(w, Delivers);
    if w.loop.pending {
      AfterCons(w, Delivers, []);
    } else {
      After1(v, Begins(began));
      AfterCons(w, Delivers, [Begins(began)]);
    }
  }

  lemma LostTurn(w: World, began: bool)
    requires Invariant(w) && w.lock == Free && Enabled(w, DeliversClose)
    ensures var steps := [DeliversClose] + if w.loop.pending then [] else [Begins(began)];
            Follows(w, steps) && After(w, steps).loop == AfterLost(w.loop, began) && After(w, steps).pc == AtSelect
  {
    var v := Next(w, DeliversClose);
    if w.loop.pending {
      AfterCons(w, DeliversClose, []);
    } else {
      After1(v, Begins(began));
      AfterCons(w, DeliversClose, [Begins(began)]);
    }
  }

  /** From every reachable pending state with the lock free and the kernel answering,
      one timer turn brings the safe table up to date with the main table. */
  lemma TimerTurn(w: World) returns (steps: seq<Step>)
    requires Invariant(w) && w.pc == AtSelect && w.loop.pending && w.lock == Free && !w.closed
             && w.applied == OpenPolicy
    ensures Follows(w, steps)
    ensures After(w, steps).safe == Copy(w.version) && After(w, steps).version == w.version
            && !After(w, steps).loop.pending
    ensures After(w, steps).loop == AfterTimer(w.loop, true, true)
  {
    var fired := Next(w, Fires);
    var back := if w.loop.subscribed then fired else Next(fired, Resubscribes(true));
    var started := Next(back, StartsRefresh);
    var taken := Next(started, TakesSnapshot);
    After1(taken, Refreshes);
    AfterCons(started, TakesSnapshot, [Refreshes]);
    AfterCons(back, StartsRefresh, [TakesSnapshot] + [Refreshes]);
    var rest := [StartsRefresh] + ([TakesSnapshot] + [Refreshes]);
    if w.loop.subscribed {
      AfterCons(w, Fires, rest);
      steps := [Fires] + rest;
    } else {
      AfterCons(fired, Resubscribes(true), rest);
      AfterCons(w, Fires, [Resubscribes(true)] + rest);
      steps := [Fires] + ([Resubscribes(true)] + rest);
    }
  }
}
