/** The route monitor: an event loop that notices main-table changes, holds traffic
    back behind the guards, and rebuilds the safe table after a delay. The loop's own
    variables are a class over the manager; the protocol between the loop, the event
    source and the manager's other callers is a state machine of atomic steps. */
module Monitor {
  import opened Netip
  import opened Policy
  import opened Kernel
  import opened Transition
  import opened Safety
  import opened Managers
  import opened Stages
  import opened Reconciler
  import opened RoutingManager

  datatype Timer = Off | Debounce | Retry

  /** The variables of the loop: `subscribed` is false while `events` is nil. */
  datatype Loop = Loop(pending: bool, timer: Timer, subscribed: bool)

  /******* What one turn of the loop does *******/

  function Noticed(l: Loop): Loop {
    l.(pending := true)
  }

  function Begun(l: Loop, lost: bool, began: bool): Loop {
    l.(timer := if lost || !began then Retry else Debounce)
  }

  function AfterUpdate(l: Loop, main: bool, began: bool): Loop {
    if !main || l.pending then l else Begun(Noticed(l), false, began)
  }

  function AfterLost(l: Loop, began: bool): Loop {
    Begun(Noticed(l.(subscribed := false)), true, began)
  }

  function AfterTimer(l: Loop, resubscribed: bool, refreshed: bool): Loop {
    if !l.subscribed && !resubscribed then l.(timer := Retry)
    else if !l.pending then l.(timer := Off, subscribed := true)
    else if !refreshed then l.(timer := Retry, subscribed := true)
    else Loop(false, Off, true)
  }

  /** At the select statement a pending change or a lost subscription has its timer armed. */
  predicate Armed(l: Loop) {
    (l.pending || !l.subscribed) ==> l.timer != Off
  }

  /** What a turn of the loop asks of the outside, in order. */
  datatype Act = Subscribes | ReadsMain

  class RouteMonitor {
    const manager: Manager
    ghost var acts: seq<Act>
    var pending: bool
    var timer: Timer
    var subscribed: bool

    constructor (manager: Manager)
      ensures this.manager == manager && State() == Loop(false, Off, true)
    {
      this.manager := manager;
      pending, timer, subscribed, acts := false, Off, true, [];
    }

    function State(): Loop
      reads this
    {
      Loop(pending, timer, subscribed)
    }

    ghost predicate Ready()
      reads this, manager, manager.adapter
    {
      && manager.Inv()
      && (manager.applied.Some? ==> MayRefresh(manager.adapter.state, manager.applied.value))
    }

    /** An event arrived. Whatever the kernel holds, this only blocks traffic. */
    method OnUpdate(main: bool)
      requires manager.Inv()
      modifies this, manager.adapter
      ensures manager.Inv() && (old(Ready()) ==> Ready()) && old(manager.adapter.trace) <= manager.adapter.trace
      ensures BlockedSince(old(manager.adapter.state), manager.adapter.trace, |old(manager.adapter.trace)|)
      ensures old(manager.adapter.calls) <= manager.adapter.calls
      ensures exists began :: State() == AfterUpdate(old(State()), main, began)
      ensures manager.adapter.NoFailure(old(manager.adapter.calls), manager.adapter.calls) ==>
                State() == AfterUpdate(old(State()), main, true)
      ensures main && !old(pending) && timer == Debounce && HoldsBack(manager) ==> GuardsUp(manager)
      ensures manager.adapter.NoFailure(old(manager.adapter.calls), manager.adapter.calls) ==>
                main && !old(pending) && HoldsBack(manager) ==> GuardsUp(manager)
    {
      hide MayRefresh, BlockedOrAs, Policy.Valid, Desired;
      if !main {
        assert State() == AfterUpdate(old(State()), main, true);
        return;
      }
      if !pending {
        pending := true;
        var began := manager.BeginRouteChange();
        timer := if began then Debounce else Retry;
        assert State() == AfterUpdate(old(State()), main, began);
      } else {
        assert State() == AfterUpdate(old(State()), main, true);
      }
    }

    /** The event channel was closed. What may be missed from here on is held back at once. */
    method OnLost()
      requires manager.Inv()
      modifies this, manager.adapter
      ensures manager.Inv() && (old(Ready()) ==> Ready()) && old(manager.adapter.trace) <= manager.adapter.trace
      ensures BlockedSince(old(manager.adapter.state), manager.adapter.trace, |old(manager.adapter.trace)|)
      ensures State() == AfterLost(old(State()), true)
      ensures old(manager.adapter.calls) <= manager.adapter.calls
      ensures manager.adapter.NoFailure(old(manager.adapter.calls), manager.adapter.calls) ==>
                !old(pending) && HoldsBack(manager) ==> GuardsUp(manager)
    {
      hide MayRefresh, BlockedOrAs, Policy.Valid, Desired;
      subscribed := false;
      if !pending {
        pending := true;
        var _ := manager.BeginRouteChange();
      }
      timer := Retry;
    }

    /** A pending change: the safe table is rebuilt, or tried again later. */
    method Rebuild() returns (refreshed: bool, ghost main: seq<Route>)
      requires manager.Inv() && subscribed && pending
      modifies this, manager, manager.adapter
      ensures manager.Inv() && (old(Ready()) ==> Ready()) && old(manager.adapter.trace) <= manager.adapter.trace
      ensures old(manager.adapter.calls) <= manager.adapter.calls
      ensures manager.adapter.NoFailure(old(manager.adapter.calls), manager.adapter.calls) ==> refreshed
      ensures State() == (if refreshed then Loop(false, Off, true) else Loop(true, Retry, true))
      ensures acts == old(acts) + [ReadsMain]
      ensures old(manager.applied).Some? && old(Ready()) ==>
                SafeSince(Attempt(old(manager.adapter.state), old(manager.applied),
                                  old(manager.applied).value.config, main),
                          manager.adapter.trace, |old(manager.adapter.trace)|)
      ensures || BlockedSince(old(manager.adapter.state), manager.adapter.trace, |old(manager.adapter.trace)|)
              || (old(manager.applied).Some?
                  && IsSnapshot(old(manager.adapter.state), old(manager.applied).value.config.families.ToSeq(), main))
      ensures refreshed && HoldsBack(manager) ==>
                && old(manager.applied).Some?
                && manager.applied == Some(Desired(old(manager.applied).value.config, main))
                && IsSnapshot(old(manager.adapter.state), old(manager.applied).value.config.families.ToSeq(), main)
                && Refreshed(old(manager.adapter.state), old(manager.applied).value.config, main,
                             manager.adapter.state)
    {
      hide MayRefresh, SafeSince, Policy.Valid, Desired, Kept, Complete, Refreshed, IsSnapshot, BlockedSince;
      NothingHappened(manager.adapter.state, manager.adapter.trace);
      timer, acts := Off, acts + [ReadsMain];
      refreshed, main := manager.RefreshAfterRouteChange();
      if !refreshed {
        timer := Retry;
      } else {
        pending := false;
      }
    }

    /** The timer fired; the subscription comes back before the refresh reads the table. */
    method OnTimer(resubscribed: bool) returns (ghost main: seq<Route>)
      requires manager.Inv()
      modifies this, manager, manager.adapter
      ensures manager.Inv() && (old(Ready()) ==> Ready()) && old(manager.adapter.trace) <= manager.adapter.trace
      ensures old(manager.adapter.calls) <= manager.adapter.calls
      ensures exists refreshed :: State() == AfterTimer(old(State()), resubscribed, refreshed)
      ensures resubscribed && manager.adapter.NoFailure(old(manager.adapter.calls), manager.adapter.calls) ==>
                State() == Loop(false, Off, true)
      ensures acts == old(acts) + (if old(subscribed) then [] else [Subscribes])
                      + (if old(pending) && (old(subscribed) || resubscribed) then [ReadsMain] else [])
      ensures old(manager.applied).Some? && old(Ready()) ==>
                SafeSince(Attempt(old(manager.adapter.state), old(manager.applied),
                                  old(manager.applied).value.config, main),
                          manager.adapter.trace, |old(manager.adapter.trace)|)
      ensures || BlockedSince(old(manager.adapter.state), manager.adapter.trace, |old(manager.adapter.trace)|)
              || (old(manager.applied).Some?
                  && IsSnapshot(old(manager.adapter.state), old(manager.applied).value.config.families.ToSeq(), main))
      ensures old(pending) && !pending && HoldsBack(manager) ==>
                && old(manager.applied).Some?
                && manager.applied == Some(Desired(old(manager.applied).value.config, main))
                && IsSnapshot(old(manager.adapter.state), old(manager.applied).value.config.families.ToSeq(), main)
                && Refreshed(old(manager.adapter.state), old(manager.applied).value.config, main,
                             manager.adapter.state)
    {
      hide MayRefresh, SafeSince, Policy.Valid, Desired, Refreshed, IsSnapshot, BlockedSince;
      NothingHappened(manager.adapter.state, manager.adapter.trace);
      if manager.applied.Some? {
        NothingSince(Attempt(manager.adapter.state, manager.applied, manager.applied.value.config, []),
                     manager.adapter.trace);
      }
      main := [];
      timer := Off;
      if !subscribed {
        acts := acts + [Subscribes];
        if !resubscribed {
          timer := Retry;
          assert State() == AfterTimer(old(State()), resubscribed, true);
          return;
        }
        subscribed := true;
      }
      if pending {
        var refreshed;
        refreshed, main := Rebuild();
        assert State() == AfterTimer(old(State()), resubscribed, refreshed);
      } else {
        assert State() == AfterTimer(old(State()), resubscribed, true);
      }
    }
  }

  lemma NothingHappened(k: KernelState, trace: seq<KernelState>)
    ensures BlockedSince(k, trace, |trace|)
  {
  }

  predicate HoldsBack(m: Manager)
    reads m
  {
    !m.closed && m.applied.Some? && m.applied.value.config.strictness != Strict
  }

  ghost predicate GuardsUp(m: Manager)
    reads m, m.adapter
  {
    m.applied.Some? ==>
      forall f: Family | m.applied.value.config.families.Has(f) ::
        TransitionGuard(m.applied.value.config, f) in m.adapter.state.Rules(f)
  }
}
