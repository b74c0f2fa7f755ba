/** The killswitch client as a concurrent protocol: callers, the interface reader and
    the serving loop, interleaved step by step. A caller holds the lock from the change
    to the notification; the loop waits on the wake slot without the lock. */
module Serving {
  import opened Netip
  import opened Killswitch

  /** Where the serving loop is. `applied` is the version it sent last in this session,
      0 before the first; `read` is the version of its last snapshot. */
  datatype Loop =
    | Disconnected
    | Reading(applied: nat)
    | Sending(applied: nat, read: nat, merged: Option<Merged>)
    | Waiting(applied: nat, read: nat)

  datatype World = World(client: State, wake: bool, notifying: bool, loop: Loop, sent: Option<Option<Merged>>)

  datatype Step =
    | Calls(op: Op)
    | Closes
    | Notifies
    | Connects
    | Reads(merged: Option<Merged>)
    | Sends
    | SendFails
    | WakesUp
    | Ends

  ghost predicate Enabled(w: World, s: Step) {
    match s
    case Calls(op) => !w.notifying && op != ResetInterfaces
    case Closes => !w.notifying
    case Notifies => w.notifying
    case Connects => w.loop.Disconnected? && !w.notifying && !w.client.closed
    case Reads(m) =>
      && w.loop.Reading? && !w.notifying
      && (!w.client.closed && w.client.known ==> IsMerge(w.client.rulesets, w.client.names, m))
    case Sends => w.loop.Sending?
    case SendFails => w.loop.Sending?
    case WakesUp => w.loop.Waiting? && w.wake
    case Ends => w.loop.Waiting?
  }

  ghost function Next(w: World, s: Step): World
    requires Enabled(w, s)
  {
    match s
    case Calls(op) =>
      var c := Apply(w.client, op);
      w.(client := c, notifying := c.version != w.client.version)
    case Closes => w.(client := w.client.(closed := true), notifying := true)
    case Notifies => w.(notifying := false, wake := true)
    case Connects =>
      w.(client := Apply(w.client, ResetInterfaces), notifying := true, loop := Reading(0), sent := None)
    case Reads(m) =>
      var c, applied := w.client, w.loop.applied;
      if c.closed then w.(loop := Disconnected)
      else if c.known && c.version != applied then w.(loop := Sending(applied, c.version, m))
      else w.(loop := Waiting(applied, c.version))
    case Sends => w.(loop := Waiting(w.loop.read, w.loop.read), sent := Some(w.loop.merged))
    case SendFails => w.(loop := Disconnected)
    case WakesUp => w.(wake := false, loop := Reading(w.loop.applied))
    case Ends => w.(loop := Disconnected)
  }

  predicate Initial(w: World) {
    w == World(State(false, 0, 0, map[], [], false), false, false, Disconnected, None)
  }

  ghost predicate Run(ws: seq<World>) {
    && ws != [] && Initial(ws[0])
    && forall i | 0 <= i < |ws| - 1 :: exists s :: Enabled(ws[i], s) && ws[i + 1] == Next(ws[i], s)
  }

  /******* The invariant *******/

  /** What was sent last is the merge of the present rulesets over the present names. */
  ghost predicate UpToDate(w: World) {
    w.sent.Some? && IsMerge(w.client.rulesets, w.client.names, w.sent.value)
  }

  /** No wake-up is lost: a version the loop has not read has filled the wake slot, or
      its author is about to. */
  predicate Noticed(w: World) {
    (w.loop.Sending? || w.loop.Waiting?) && w.loop.read != w.client.version ==> w.wake || w.notifying
  }

  ghost predicate AppliedOk(w: World, applied: nat) {
    && applied <= w.client.version && 0 < w.client.version
    && (applied == w.client.version ==> w.client.known && UpToDate(w))
  }

  ghost predicate LoopOk(w: World) {
    match w.loop
    case Disconnected => true
    case Reading(applied) => AppliedOk(w, applied)
    case Sending(applied, read, merged) =>
      && AppliedOk(w, applied) && read <= w.client.version
      && (read == w.client.version ==> w.client.known && IsMerge(w.client.rulesets, w.client.names, merged))
    case Waiting(applied, read) =>
      && AppliedOk(w, applied) && read <= w.client.version
      && (read == w.client.version && w.client.known ==> applied == read)
  }

  ghost predicate Invariant(w: World) {
    Noticed(w) && LoopOk(w)
  }

  lemma InvariantKept(w: World, s: Step)
    requires Invariant(w) && Enabled(w, s)
    ensures Invariant(Next(w, s))
  {
    hide IsMerge;
    if s.Calls? {
      CallKeeps(w, s.op);
    }
  }

  /** A call either changes nothing that is sent, or moves the version on. */
  lemma CallKeeps(w: World, op: Op)
    ensures var c := Apply(w.client, op);
            || c == w.client
            || (c.version == w.client.version + 1 && c.closed == w.client.closed)
  {
  }

  lemma {:induction false} InvariantHolds(ws: seq<World>, i: nat)
    requires Run(ws) && i < |ws|
    ensures Invariant(ws[i])
  {
    if i > 0 {
      InvariantHolds(ws, i - 1);
      var s :| Enabled(ws[i - 1], s) && ws[i] == Next(ws[i - 1], s);
      InvariantKept(ws[i - 1], s);
    }
  }

  /** In every state of every run: whenever the loop waits and the version differs from
      the one it last read, the wake slot is full or about to be filled; and once it
      waits with an empty slot, no call half done and the interfaces known, the last
      mutation of the session is the merge of the current rulesets over the current names. */
  lemma QuiescentIsUpToDate(ws: seq<World>, i: nat)
    requires Run(ws) && i < |ws| && ws[i].loop.Waiting?
    ensures ws[i].loop.read != ws[i].client.version ==> ws[i].wake || ws[i].notifying
    ensures !ws[i].wake && !ws[i].notifying && ws[i].client.known ==> UpToDate(ws[i])
  {
    InvariantHolds(ws, i);
  }

  /** A waiting loop with a full slot catches up by itself: three steps later it waits
      again, having sent the present merge. */
  lemma CatchesUp(w: World, merged: Option<Merged>)
    requires Invariant(w) && w.loop.Waiting? && w.wake && !w.notifying && !w.client.closed && w.client.known
    requires IsMerge(w.client.rulesets, w.client.names, merged)
    ensures var read := Next(w, WakesUp);
            && Enabled(read, Reads(merged))
            && var v := Next(read, Reads(merged));
               if v.loop.Waiting? then UpToDate(v) && !v.wake
               else
                 && Enabled(v, Sends) && Next(v, Sends).loop.Waiting?
                 && UpToDate(Next(v, Sends)) && !Next(v, Sends).wake
  {
    hide IsMerge;
  }
}
