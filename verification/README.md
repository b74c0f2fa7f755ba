# A verified model of sysnet-linux

This project models, in Dafny, the parts of sysnet-linux that decide where packets
go and who owns what: the fail-closed policy-routing engine, the route monitor, the
TUN address reconciler, the killswitch client, the lifecycle and the dynamic updates
of TUNs, the DNS providers, connection marks and the subnet check. Everything is
proved for all inputs and all runs; nothing was executed. `dafny verify dfyconfig.toml`
checks the whole project.

## How to read it

**Policy routing.** `Netip`, `Order` and `Strings` hold addresses as bit strings,
sorting and deduplication. `Policy` is configuration validation and the compiler.
`Kernel` gives rules and tables their kernel meaning: a list sorted by priority with
ties in insertion order, longest-prefix lookup, a miss goes on, a hit or an
unreachable rule stops. Deleting a rule uses the library's partial selector (the first
rule that agrees on the fields the request sets), and listing rules loses the action
and small table numbers, as the source's `listedRule` says.

The central theorem is the promise of `RoutingManager.Manager.Apply`: the adapter keeps
a trace of every kernel state after every single call, and `SafeSince` says of each of
them that every packet of every family is unreachable, or decided exactly as when the
call began, or exactly as by the complete new state, compiled from the main table of
that moment. It holds wherever the calls stop or fail, and also when the old and the
new priority blocks overlap at shifted bases or their tables are swapped. Wherever an
attempt stopped, the next one may start (`Attempts.ShapedRestarts`), so it holds for any
number of attempts (`Recovery.ApplyRepeatedly`); with policies of one block and one pair
of tables it holds for every Apply of every sequence of Apply, Refresh, route changes
and Rollback, whichever of them failed before (`Attempts.RunSession`). `Transition`
states it, `Safety` proves it for each kind of intermediate state, `Steps` shows that
each call leads from one kind to the next, and `Manager.dfy`, `Apply.dfy`,
`Reconciler.dfy` and `RoutingManager.dfy` are the code itself: loops over an adapter
whose n-th call may fail. `Contents` and `Modes` then say what a complete state does
with each packet, `Attempts` joins calls one after the other, and `Recovery` joins
Apply, Rollback and Apply again into the recovery from a failed update.

**Assumptions about the kernel.** Only the manager writes inside its priority blocks and
tables, and rules outside its blocks do not look up its tables. A failed call changes
nothing, and each family's rule list holds rules of that family (`OwnFamilies`). An
`Apply` that is to be safe may find in the blocks any rules of the old and the new
policy and their guards, all of them or only some, old rules first on a guard's slot;
with equal bases also rules of third policies (`Starts`). A `Refresh` that is to be safe
finds the applied policy complete, guards and safe tables aside (`MayRefresh`). From any
other kernel both still promise to touch nothing foreign. A route is identified by
family, table, destination and metric. Any route found in the main table counts as a
hit. The kernel and the netlink library take an IPv4-mapped prefix as an IPv6 address
when it is added or deleted; only listing it does not show it.

**State machines.** Concurrent parts are sequences of atomic steps: `Protocol` for the
route monitor, `Serving` for the killswitch client, `Lifecycle` for TUN ownership,
`Direct` for the resolv.conf provider. Each also has a class whose methods change the
fields as the source does and are proved equal to the step functions. Lemmas named in
the table speak about every state of every run.

**What turned out false as one might state it**, with the exact condition:
- A listing does not show IPv4-mapped IPv6 addresses, so an address plan does not settle
  the link for every consistent set of wanted prefixes. It runs and settles the link if
  and only if no wanted mapped address is on it, under whatever length
  (`Addresses.SettlesIff`). If none of them is on it under another length, two updates
  in a row put every wanted mapped prefix back where it was
  (`TunLinks.SetPrefixesTwice`, `TunLinks.MappedPrefixComesAndGoes`).
- An inactive direct DNS provider does not always mean the original file. It does if and
  only if the last attempt on the file succeeded or left the original
  (`Direct.InactiveMeansOriginal`); a torn restore is repaired by its retry if and only
  if it left the original, no file, or a file that looks owned
  (`Direct.FailedRestoreIsRetried`, `Direct.TruncatedRestoreIsLost`).
- A reply to an unmarked packet does not always stay unmarked. It does if and only if no
  selector matches the connection's mark or the mark 0 (`Connmark.UnmatchedReply`).
- Skipping an unchanged upstream configuration is not always sound. After any run it is,
  if and only if no failed attach since the last installation took a name in use
  (`Signatures.RefreshIsSound`, `Signatures.HealthyIffUndamaged`). Signatures need texts
  without separators (`Signatures.CommaBreaksSignature`).
- A safe table that is not a copy of the main table does not always have work ahead of
  it. It does if and only if no Apply, Refresh or Rollback was abandoned part way, unless
  work lies ahead anyway (`Protocol.NoChangeIsLost`,
  `Protocol.AbandonedRefreshIsNotRepaired`).
- A refresh that succeeds does not always leave the policy complete, as after a failed
  Apply. It does if and only if the kernel held the policy's rules and VPN tables before
  (`Recovery.RefreshCompletesIff`); from a kernel with nothing but guards it leaves the
  foreign rules alone to decide (`RoutingManager.RefreshOpensGuardsOnly`,
  `Recovery.FailedApplyThenRefresh`).
- Apply is not safe from every kernel. It is wherever the change may start (`Starts`,
  which a caller can check on the rule lists); where a policy of another base has left a
  lookup of the VPN table in front of the guard, a packet leaves through a half-built
  table (`Attempts.LeftoverLeaks`).
- Adding an address does not always leave the link with the listed addresses. It does if
  and only if the address is not a loopback one and the list did not hold the IPv6
  address under another length (`DefaultTuns.DefaultTun.AddAddr`).
- A failed update of the addresses cannot always be undone. Putting the old addresses
  back succeeds without call failures if and only if the link takes them: no address
  under two lengths (`DefaultTuns.DefaultTun.RestoreLink`).
- A direct DNS provider does not always forward to its remembered upstreams. Over every
  run it does if and only if setting the router has not failed since the last new client
  went in (`Direct.ForwardsIffUndamaged`, `Direct.FailedRouterIsNotRepaired`).
- Normalising a DNS domain twice changes it if and only if a second `~` was in front
  (`Resolved.NormalizedDomain`).

## Model

| member | source | states |
|---|---|---|
| Policy.MarksOverlapExact | routing/config.go:329-332 | The overlap test holds exactly when one 32-bit mark satisfies both selectors. |
| Policy.ValidateSourceRoutes | routing/config.go:233-292 | The one-pass check with its seen map accepts exactly the routes that are each well formed with pairwise distinct destinations. |
| Policy.Validate | routing/config.go:141-294 | Accepts exactly the valid configurations. |
| Policy.ScalarsExactly | routing/config.go:141-231 | Which numbers, tables, priorities, marks and choices are accepted, in plain terms. |
| Policy.SourceRouteExactly | routing/config.go:233-292 | A source route is accepted exactly for a network without host bits and a source of its family, which the TUN carries. |
| Policy.PreferredSourceExactly | routing/config.go:296-304 | Any address may be a source but the unspecified, loopback, multicast, broadcast, IPv4-mapped and zoned ones. |
| Policy.CompiledRuleShape | routing/compiler.go:156-221 | One rule per priority, increasing, inside the block, never on the guard's slot, and only the two bypass rules below it. |
| Policy.SafeRouteExactly | routing/safe.go:19-48 | A route is safe exactly when it is unicast to a proper prefix, avoids the TUN on its link and every nexthop, and has a gateway only if every address it covers is private. |
| Policy.PrivateExactly | routing/safe.go:50-75 | A prefix passes as private or local exactly when all its addresses lie in the ranges of section 3 of RFC 1918, section 2.1 of RFC 3927, section 3.1 of RFC 4193 and section 2.5.6 of RFC 4291: no range is missing from the list and none is too wide. |
| Policy.SafeCopyExactly | routing/compiler.go:100-120 | The copy of a route is determined by what it keeps: destination, metric, link, gateway, source, scope, the on-link and pervasive flags, and the same of every nexthop. |
| Policy.SafeRouteDoesNotLeak | routing/safe.go:19-75 | A gateway of a safe route is used only for destinations inside the ranges of section 3 of RFC 1918, section 2.1 of RFC 3927, section 3.1 of RFC 4193 and section 2.5.6 of RFC 4291. |
| Policy.CompileSources | routing/compiler.go:37-47 | One pass finds the default source and the specific routes of a family. |
| Policy.CompileVpnRoutes | routing/compiler.go:30-59 | The VPN routes of a family: nothing if the TUN does not carry it, else a default and the sorted specific routes. |
| Policy.CompileFamilies | routing/compiler.go:25-60 | Rules and VPN routes of all policy families in order. |
| Policy.CompileSafeRoutes | routing/compiler.go:62-74 | Copies of the safe routes of the snapshot in install order. |
| Policy.CompileDesiredState | routing/compiler.go:14-76 | Succeeds exactly for valid configurations and yields the compiled state. |
| Kernel.CatchAllOnlyBlocks | routing/compiler.go:246-252 | Inserting catch-all unreachable rules anywhere can only turn an outcome into unreachable. |
| Contents.VpnLookup | routing/compiler.go:25-60 | In a carried family the VPN lookup never misses, leaves on the TUN and takes the source of the most specific source route covering the destination. |
| Contents.VpnRoutesIgnoreOrder | routing/compiler.go:85-98 | The compiled VPN routes do not depend on the order of the source routes. |
| Contents.SafeTable | routing/compiler.go:62-75 | The safe table holds exactly copies of the snapshot's safe routes. |
| Contents.SafeRoutesExactly | routing/compiler.go:62-120 | The compiled safe routes are exactly the copies of the safe main routes of the policy families, both said in plain terms. |
| Contents.SafeLookup | routing/compiler.go:62-75 | The safe table decides exactly the destinations covered by a safe main route, never over the TUN, never by a default prefix, and through a gateway only inside private ranges. |
| Contents.SafeInstallOrder | routing/compiler.go:122-154 | The install order rearranges the safe routes with every gateway-dependent one after all others. |
| Modes.CompiledRulesKeepPromise | routing/compiler.go:156-221 | For every mark and destination the compiled rules evaluate to the mode's specification. |
| Modes.PromiseOutcomes | routing/compiler.go:156-228 | App mark means main or unreachable; an uncarried family is blocked; the VPN is reached only by the traffic the mode names; only unmarked packets in include, non-strict mode can fall through. |
| Modes.AppliedPolicy | routing/manager.go:347-431 | After a complete change the kernel evaluates to foreign rules in front, then the mode's specification, then foreign rules behind. |
| Safety.GuardedIsSafe | routing/manager.go:347-431 | Every state with all guards in place and in the blocks only guards, new rules and what was there is safe, whatever the owned tables hold. |
| Safety.InstallingIsSafe | routing/manager.go:347-431 | While guards are being installed every packet is blocked or decided as before. |
| Safety.RemovingIsSafe | routing/manager.go:421-428 | While guards are being removed every packet is blocked or decided as by the complete new state. |
| Managers.TransitionGuards | routing/manager.go:486-500 | One guard per configuration and family, without repetition. |
| Managers.OwnedRuleScopes | routing/manager.go:438-461 | The scopes cover exactly the priority blocks of the configurations, no family and block twice. |
| Managers.OwnedTableTargets | routing/manager.go:468-484 | The targets are exactly the VPN and safe tables of the configurations, none twice. |
| Managers.FlushTableFamily | routing/manager.go:563-573 | Empties one table and touches nothing else, call by call. |
| Managers.DeleteOwnedRules | routing/manager.go:502-523 | Touches nothing outside one block and keeps the order of the rest; from any kernel guards survive every state on the way, though rules are recognised and deleted through the lossy listing, and success leaves only what is listed like a guard; without call failures it succeeds. |
| Stages.InstallGuards | routing/manager.go:367-372 | From any kernel every state while the guards go in blocks a packet or decides it as before, and nothing but guards is new; from the start of a change it leads to a guarded kernel. |
| Stages.BlockerBlocks | routing/manager.go:367-372 | Adding a catch-all rule to any kernel only blocks. |
| Stages.ClearGuardSlots | routing/manager.go:373-388 | Nothing foreign changes; behind the guards old rules leave the guards' slots without any packet being let through, also where an earlier attempt has taken some of them away. |
| Stages.BareIsGuards | routing/manager.go:405-413 | If no rule of the new policy was on a guard's slot from the start, pruning leaves guards and nothing else. |
| Stages.FlushTargets | routing/manager.go:390-394 | Empties only owned tables; behind the guards every state is safe. |
| Stages.InstallRoutes | routing/manager.go:395-404 | Installs routes in order; other tables and all rules keep their contents; behind the guards every state is safe. |
| Stages.PruneScopes | routing/manager.go:405-413 | Touches nothing foreign; behind the guards every state is safe, and inside the blocks only guards are left, and lookups of the new policy that were on a guard's slot from the start. |
| Stages.AddRules | routing/manager.go:414-420 | Adds the compiled rules, none of them outside the blocks; behind the guards every state is safe; if the first call fails nothing has changed. |
| Stages.RemoveGuards | routing/manager.go:421-428 | From any kernel removes only what the guards' requests match; from a finished change every state is safe and the end is exactly the new rules. |
| Reconciler.ApplyDesired | routing/manager.go:347-431 | From any kernel nothing foreign changes; from a kernel where the change may start every state on the way is safe and success means exactly the new rules and tables; failing at the first new rule leaves the kernel behind its guards as after pruning. |
| Reconciler.NewTablesMatch | routing/manager.go:390-404 | The owned tables end up equal to the compiled routes. |
| RoutingManager.RefreshLocked | routing/manager.go:195-238 | From any kernel nothing foreign changes, nothing but guards is new, and success leaves exactly the old rules without the guard and fresh safe tables; every run has only blocked traffic or read the main table exactly; from a kernel that holds what was applied every state on the way is safe, success completes the change, and after a failure anywhere a refresh may start again. |
| RoutingManager.SnapshotMain | routing/manager.go:335-345 | The snapshot holds exactly the main-table routes of the families. |
| RoutingManager.CompleteIsExact | routing/manager.go:347-431 | Success leaves every owned block equal to the compiled rules and every owned table equal to the compiled routes, under both scopes, and everything else untouched. |
| RoutingManager.CompleteMayRefresh | routing/manager.go:149-178 | A complete state is one from which the next Apply or Refresh may start. |
| RoutingManager.RefreshOpensGuardsOnly | routing/manager.go:195-238 | Where a failed Apply stops with only guards in the blocks, a refresh of the old policy deletes the guard and leaves the foreign rules alone to decide. |
| RoutingManager.Manager.Apply | routing/manager.go:149-178 | From any kernel nothing foreign changes, failure keeps `applied`, and a run that changed anything read the main table exactly. Where the change may start it is fail-closed: each state after each call is unreachable, as at the start or as the new policy for every packet; success applies the compiled snapshot exactly; without call failures a valid configuration whose link exists is applied, and one whose link does not exist changes nothing. |
| RoutingManager.Manager.Refresh | routing/manager.go:183-193 | The same on the manager, with the new snapshot applied on success; a run that did more than block traffic read the main table exactly; without call failures it succeeds. |
| RoutingManager.Manager.BeginRouteChange | routing/monitor.go:174-190 | From any kernel it only blocks traffic, touches nothing foreign and adds nothing but guards; on success every guard is in place; a kernel that may be refreshed stays one. |
| RoutingManager.Manager.RefreshAfterRouteChange | routing/monitor.go:192-200 | Nothing to do without a non-strict policy, otherwise a refresh with the same promises. |
| RoutingManager.Manager.Rollback | routing/manager.go:257-290 | Success empties every owned block and table of both scopes; in every outcome nothing else is touched, no rule is new and the rest keeps its order; failure keeps `applied`; without call failures it succeeds. |
| RoutingManager.Manager.Close | routing/manager.go:294-326 | Closing changes neither the kernel nor what is applied. |
| Attempts.ShapedRestarts | routing/manager.go:149-178 | Wherever an attempt at a policy stopped, the same change may start again. |
| Attempts.FewerStarts | routing/manager.go:257-290 | A rollback that stopped part way leaves every change able to start that was able to before. |
| Attempts.LeftoverLeaks | routing/manager.go:367-404 | A concrete kernel where Apply is not safe: a lookup of the VPN table on the block's first slot sends packets with the application mark into the tunnel while the tables are replaced. |
| Attempts.FitStarts | routing/manager.go:149-178 | From a kernel that holds in the block only guards and what policies of one layout can have, any of them may be applied over any other. |
| Attempts.OneCall | routing/manager.go:149-290 | Each call, however it ends, leaves such a kernel; an Apply is safe from where it began, a route change only blocks, and a Refresh is safe where the policy was complete. |
| Attempts.RunSession | routing/manager.go:149-290 | Over every sequence of Apply, Refresh, route changes and Rollback with policies of one block and pair of tables, with any call failures, every Apply is safe from where it began. |
| Recovery.ClearedStarts | sysnet.go:1124-1131 | After a complete rollback each of the two policies may be applied afresh. |
| Recovery.RulesRestored | sysnet.go:1124-1131 | Rolling back and applying the old policy again gives the old rule lists, rule by rule. |
| Recovery.SafeTableSame | routing/compiler.go:62-75 | The safe table depends only on which routes the main table holds, not on the order of the listing. |
| Recovery.RestoredDecidesAlike | sysnet.go:1124-1131 | If the old state was complete and the main table has not changed since it was read, the restored kernel decides every packet as before the failed update. |
| Recovery.RestoreStarts | sysnet.go:1056-1072 | Whatever a failed update and a failed rollback left, the old policy may be applied again if both have the same block. |
| Recovery.UpdateOrRestore | sysnet.go:1056-1072 | Apply, and on failure Rollback and Apply of the old policy, the latter also after a failed Rollback: each Apply is safe from where it begins if the change may start there, as the second one may when the Rollback succeeded or the policies have the same block; if no call fails after the failed Apply, the new policy is complete or the old one is back and decides every packet as before; in every outcome nothing foreign changes. |
| Recovery.RefreshCompletesIff | routing/manager.go:195-238 | From any kernel whose foreign rules leave the tables alone, a successful refresh completes the policy if and only if the kernel held its rules and VPN tables, guards aside. |
| Recovery.SameGoal | routing/manager.go:347-431 | The complete new state is the same wherever among the manager's own leftovers an attempt begins. |
| Recovery.ApplyRepeatedly | routing/manager.go:149-178 | Any number of attempts at one policy, each where the last stopped: every state of every attempt is unreachable, as before the first one, or as the new policy compiled from the main table for every packet; success is complete, and after a failure the next attempt may start. |
| Recovery.FailedApplyThenRefresh | routing/manager.go:149-238 | Apply failing at the call that adds its first rule, then a successful Refresh: nothing but the foreign rules is left. |
| Monitor.RouteMonitor.OnUpdate | routing/monitor.go:133-143 | A main-table event arms the timer and, whatever the kernel holds, only blocks traffic; without call failures every guard is then in place; other events and repeats change nothing. |
| Monitor.RouteMonitor.OnLost | routing/monitor.go:121-132 | A lost subscription marks a pending change, arms the retry timer and only blocks traffic; without call failures every guard is then in place. |
| Monitor.RouteMonitor.Rebuild | routing/monitor.go:157-169 | Reads main once and rebuilds the safe tables from it, or arms the retry timer. |
| Monitor.RouteMonitor.OnTimer | routing/monitor.go:144-169 | Resubscribes before it reads main, does not read without a subscription, clears `pending` only after the safe tables were rebuilt from that reading, does nothing but block before it, and is safe from a kernel that holds what was applied. |
| Protocol.InvariantHolds | routing/monitor.go:81-172 | What every step keeps, over all interleavings of changes, events, losses, timers, Apply, Refresh and Rollback. |
| Protocol.NoChangeIsLost | routing/monitor.go:81-172 | A pending change or lost subscription has its timer armed; under a non-strict policy a safe table that is not a copy of main has an undelivered event or a pending refresh ahead of it, if and only if no operation was abandoned part way or such work lies ahead anyway. |
| Protocol.AbandonedRefreshIsNotRepaired | routing/manager.go:195-238 | A failed refresh of a caller leaves a half-built safe table with nothing under way to finish it. |
| Protocol.TimerTurn | routing/monitor.go:144-169 | From every reachable pending state one timer turn brings the safe table up to date. |
| Protocol.UpdateTurn | routing/monitor.go:133-143 | The protocol's steps of an event add up to the loop's own computation. |
| Protocol.LostTurn | routing/monitor.go:121-132 | The same for a lost subscription. |
| Addresses.NormalizePrefixes | tun/address_linux.go:99-125 | Succeeds exactly for valid prefixes without conflicting lengths and keeps each once. |
| Addresses.IndexCurrent | tun/address_linux.go:140-165 | The index maps and the retained array describe the listing exactly. |
| Addresses.RefreshPhase | tun/address_linux.go:166-180 | Usable IPv6 addresses get NODAD in place. |
| Addresses.AddPhase | tun/address_linux.go:182-194 | Prefixes that clash with nothing are added. |
| Addresses.RenewPhase | tun/address_linux.go:196-209 | Unusable IPv6 addresses are deleted and added again. |
| Addresses.DisplacePhase | tun/address_linux.go:211-231 | Addresses held under another length are displaced. |
| Addresses.SweepPhase | tun/address_linux.go:233-243 | One deletion for each entry that is neither retained nor deleted already. |
| Addresses.PlanReconciliation | tun/address_linux.go:127-245 | For every consistent set of prefixes: the plan runs exactly when no wanted mapped address is on the link under another length, an interrupted plan has not settled the link, the link ends with exactly the wanted prefixes that were not there unlisted, all good, every prefix of the plan keeps the wanted listed addresses that worked, clash-free additions precede deletions, and the plan is empty exactly for a settled link without wanted mapped prefixes. |
| Addresses.SettlesIff | tun/address_linux.go:127-245 | A plan runs and settles the link if and only if no wanted IPv4-mapped address is on it under whatever length. |
| Addresses.MappedPrefixesAlternate | tun/address_linux.go:127-245 | Two plans in a row put every wanted mapped prefix back where it was. |
| Addresses.PlanExistingAddition | tun/address_linux.go:286-305 | The plan for an IPv6 prefix already present. |
| Addresses.PlanAddition | tun/address_linux.go:247-284 | The added prefix ends up good, other addresses are untouched, a good IPv6 prefix needs no change; a mapped prefix is always planned as one plain addition. |
| Addresses.MappedAddition | tun/address_linux.go:247-284 | That addition is accepted exactly when the address is not there under another length, and leaves the prefix good exactly when it was not there unusable. |
| TunLinks.ApplyChanges | tun/address_linux.go:328-357 | Every state is that of some prefix of the plan; without call failures it succeeds exactly when the plan runs and otherwise stops where the kernel refuses. |
| TunLinks.VerifyPrefixes | tun/address_linux.go:359-398 | Succeeds exactly when every wanted prefix is listed, usable and has NODAD. |
| TunLinks.SetPrefixes | tun/address_linux.go:54-75 | Without call failures it succeeds exactly for consistent prefixes none of which is IPv4-mapped; it leaves the link settled exactly when no wanted mapped address was on it; success means exactly those prefixes; wanted listed addresses that worked never go away. |
| TunLinks.AddPrefix | tun/address_linux.go:77-97 | The same for one prefix; a mapped one is put on the link unless its address is there under another length, and an error is reported. |
| TunLinks.SetPrefixesTwice | tun/address_linux.go:54-75 | Two updates in a row with the same prefixes: every mapped one is back where it was, the others are there and good, and both report success exactly without mapped ones. |
| TunLinks.MappedPrefixComesAndGoes | tun/address_linux.go:54-75 | On an empty link ::ffff:1.2.3.4/128 is added by the first update and removed by the second, given that the kernel takes it as an IPv6 address. |
| Strings.UniqueSortedStrings | killswitch/client.go:564-579 | The increasing list of exactly the given strings. |
| Killswitch.NormalizeAllowRules | killswitch/client.go:541-548 | Every list becomes increasing with the same members. |
| Killswitch.MergeTMPRulesets | killswitch/client.go:502-525 | Switches are the disjunction and lists the increasing exact union; nothing to merge is a removal. |
| Killswitch.MergeIsUnique | killswitch/client.go:502-525 | The merge does not depend on the order in which rulesets are visited. |
| Killswitch.Client.CreateTMPRuleset | killswitch/client.go:115-129 | A fresh identifier with exactly these rules, one version further, wake slot full; refused only when closed or out of identifiers. |
| Killswitch.Client.UpdateTMPRuleset | killswitch/client.go:134-146 | Stores exactly the new rules under an existing identifier, or refuses and stores nothing. |
| Killswitch.Client.DeleteTMPRuleset | killswitch/client.go:150-162 | Removes exactly this ruleset; a missing one changes nothing. |
| Killswitch.Client.ResetInterfaceNames | killswitch/client.go:270-276 | Forgets the names and counts a version. |
| Killswitch.Client.SetInterfaceNames | killswitch/client.go:278-298 | Stores the increasing list of exactly the non-empty names; an unchanged set counts no version. |
| Killswitch.Client.Snapshot | killswitch/client.go:240-250 | The version together with the merge of exactly that version. |
| Killswitch.Client.Close | killswitch/client.go:166-177 | Closing keeps what is stored and fills the wake slot once. |
| Killswitch.StoredIsLastGiven | killswitch/client.go:115-177 | Over every run of operations and closing, what is stored under an identifier is what the last Create or Update that was not refused gave it, and nothing after a Delete. |
| Serving.InvariantHolds | killswitch/client.go:202-298 | What every interleaved step keeps. |
| Serving.QuiescentIsUpToDate | killswitch/client.go:202-298 | A waiting loop with an unread version has its wake slot full or being filled; at quiescence the last mutation is the merge of the current rulesets over the current names. |
| Serving.CatchesUp | killswitch/client.go:214-237 | A woken loop sends the current merge and waits again. |
| Lifecycle.StepKeeps | default_tun.go:75-421 | Every build, failed build, rebuild and close keeps ownership, accounting and history. |
| Lifecycle.ClosedExactlyOnce | default_tun.go:75-421 | Over whole runs every native TUN is held by exactly one holder and never closed, or by none and closed exactly once. |
| Lifecycle.SourcesFollowNatives | default_tun.go:315-328 | Source generations never go back and are equal exactly when the exposed native TUN is. |
| Lifecycle.BuildOutcome | default_tun.go:75-384 | The same about the step, with the cases in which the active TUN is given up. |
| Lifecycle.System.BuildDefaultTun | default_tun.go:75-384 | When it succeeds, exactly; with the old link up the exposed TUN and its generation stay, otherwise the new TUN is exposed under a newer generation and the former one closed once; a failed build closes what it created and keeps the active TUN or closes it. |
| Lifecycle.System.Fail | default_tun.go:167-202 | The replacement is closed first, then the active state's TUN. |
| Lifecycle.System.CloseDefaultTun | default_tun.go:658-726 | The active state's own handle closes its TUN once; any other handle changes nothing. |
| Lifecycle.System.BeginBuildTun | sysnet.go:604-612 | A newly created TUN belongs to the running call. |
| Lifecycle.System.FinishBuildTun | sysnet.go:613-659 | It becomes a live handle exactly if it was configured and the system is open, and is closed once otherwise. |
| Lifecycle.System.CloseRegularTun | sysnet.go:1302-1321 | A live handle goes away and its TUN is closed once; any other handle changes nothing. |
| Lifecycle.System.Close | sysnet.go:493-548 | Every exposed TUN is closed once and no handle is left. |
| TunOptions.NormalizeTunAddrs | sysnet.go:1363-1416 | Keeps non-loopback prefixes once each, adds the fallback exactly when its address is missing, and returns a DNS address that is assigned: the wanted one if it is, else the fallback. |
| TunOptions.NormalizeTunRoutes | sysnet.go:1418-1436 | Keeps non-loopback prefixes once each. |
| TunOptions.KeptOrder | sysnet.go:1363-1436 | What is kept stays in the order of first appearance. |
| TunOptions.NormalizeTunSourceRoutes | sysnet.go:1438-1503 | Succeeds exactly for well-formed routes with assigned sources and no conflict, and keeps each masked destination once. |
| TunOptions.RouteFamilies | sysnet.go:1515-1532 | For valid prefixes IPv4 is carried exactly if an address or route is IPv4 or there is none at all, and IPv6 likewise. |
| TunOptions.CarriesItsPrefixes | default_tun.go:286-299 | The configuration carries exactly those families, and covers everything if it is strict. |
| TunOptions.FamiliesKeepValid | sysnet.go:1534-1543 | With assigned sources the configuration passes validation for any addresses and routes. |
| TunOptions.NormalizedShape | sysnet.go:1438-1503 | What the normaliser accepts meets the conditions the router checks. |
| DefaultTuns.BuildConfig | default_tun.go:75-101 | Whatever the normalisers accept gives a valid configuration that carries the families of its prefixes, and an assigned DNS address; well-formed options are accepted. |
| DefaultTuns.ValidateSourceAddrs | sysnet.go:1133-1154 | Succeeds exactly when every source stays assigned. |
| DefaultTuns.SetTunAddrs | tun/config.go:48-64 | Without call failures setting a link's addresses succeeds exactly for a list without mapped prefixes and without an address under two lengths, and leaves exactly that list. |
| DefaultTuns.AddTunAddr | tun/config.go:66-83 | Without call failures adding an address succeeds exactly for a prefix that is not mapped, and replaces only the same IPv6 address. |
| DefaultTuns.FinalListOk | sysnet.go:1363-1416 | Every normalised list holds the fallback's address and no other loopback one. |
| DefaultTuns.DefaultTun.UpdateAddrs | sysnet.go:1009-1077 | All or nothing: an error whose restoring calls succeeded leaves link, main routes, intent and applied configuration as before; the configuration stays valid; without call failures it succeeds exactly when every source stays assigned and the link takes the change. |
| DefaultTuns.DefaultTun.ChangeLink | sysnet.go:1037-1072 | Addresses, main routes and routing manager in turn; a failure whose restoring calls succeed leaves all three as before. |
| DefaultTuns.DefaultTun.SetRoutes | sysnet.go:1079-1112 | The same for routes. |
| DefaultTuns.DefaultTun.SetAddrs | sysnet.go:962-981 | The same for a requested address list; the DNS address never changes; without call failures it succeeds exactly for a list that parses, keeps DNS address and sources assigned, and is one the link takes. |
| DefaultTuns.DefaultTun.AddAddr | sysnet.go:983-1007 | The same for one added address; without call failures it succeeds exactly for a prefix that is not mapped; the list gains exactly that prefix unless it is loopback; link and list stay equal if and only if it is not loopback and the list did not hold the IPv6 address under another length. |
| DefaultTuns.AddedAgrees | sysnet.go:983-1007 | Adding a prefix to link and list keeps them equal exactly when the list does not hold the IPv6 address under another length. |
| DefaultTuns.DefaultTun.RestoreLink | sysnet.go:1114-1122 | Success restores addresses and main routes; without call failures it succeeds exactly when the link takes the old addresses. |
| DefaultTuns.DefaultTun.RestoreRouting | sysnet.go:1124-1131 | Success restores the applied configuration; `Recovery` says what that means for packets. |
| Resolved.FilterAddr | dns/resolved.go:1846-1860 | Filtering in place gives the pure filter of the original contents. |
| Resolved.AllowedOrder | dns/resolved.go:1846-1860 | What is left keeps its order and its number. |
| Resolved.AddrExcluded | dns/resolved.go:1862-1869 | Exactly the valid listed addresses are excluded. |
| Resolved.DedupeServers | dns/resolved.go:1166-1177 | Exactly the valid servers, once each. |
| Resolved.UniqueOrder | dns/resolved.go:1166-1177 | Servers stay in the order of first appearance. |
| Resolved.DedupeStrings | dns/resolved.go:1187-1201 | Non-empty strings once each, longer domains first. |
| Resolved.NormalizedDomain | dns/resolved.go:1157-1164 | No upper-case letter is left, and normalising again changes nothing exactly when no second `~` is in front. |
| Resolved.SameDomain | dns/resolved.go:1157-1164 | Case, one `~` in front and spaces around do not change the normalised domain. |
| Resolved.PlainAgain | dns/resolved.go:1157-1164 | A lower-case domain that ends in a dot, without space or mark in front, is left as it is. |
| Resolved.DotAtEnd | dns/resolved.go:1157-1164 | The dot at the end may be left out. |
| Resolved.LabelsOf | dns/resolved.go:1127-1129 | A name is the list of its labels, each with a dot behind it. |
| Resolved.LabelsPlain | dns/resolved.go:1127-1129 | Labels hold no dot. |
| Resolved.NameMatchesByLabels | dns/resolved.go:1127-1129 | A domain matches a name exactly when it is the root or its labels are the last labels of the name. |
| Resolved.LongestIsDeepest | dns/resolved.go:1096-1129 | Among the domains that match a name, the longer text is the one with more labels. |
| Resolved.RouteQuestion | dns/resolved.go:1096-1118 | The first route that holds the longest matching domain, or none. |
| Resolved.AnswerUnique | dns/resolved.go:1096-1118 | That answer is determined. |
| Resolved.AnswerIgnoresOrder | dns/resolved.go:1187-1201 | Per-route sorting and deduplication do not affect where a question goes. |
| Upstreams.Builder.Add | dns/resolved.go:1052-1067 | Adds one input unless no valid server is left. |
| Upstreams.SelectTarget | dns/resolved.go:935-965 | The link's servers, else the manager's for it, else the saved ones. |
| Upstreams.SelectInputs | dns/resolved.go:923-1010 | The selection is the specified function of what was reported. |
| Upstreams.InputsMadeOf | dns/resolved.go:923-1010 | The selection input by input: the target's usable servers with the domains reported where they came from, then one input for each other link with a usable server in order of index, with its own normalised domains or everything; the fallback's input only without any of them. |
| Upstreams.NeverExcluded | dns/resolved.go:923-1010 | No excluded or invalid address is ever an upstream. |
| Upstreams.FallbackOnlyWhenNothingElse | dns/resolved.go:992-996 | The fallback is consulted exactly when the target's list and every other link have no usable server. |
| Upstreams.TargetUnusable | dns/resolved.go:949-965 | With valid addresses that means link, manager entry and saved servers are all unusable. |
| Upstreams.SelectionIgnoresMapOrder | dns/resolved.go:973-990 | The result does not depend on map iteration order. |
| Signatures.SameSignatureSameRoutes | dns/resolved.go:1073-1094 | Without separators in domains and URLs equal signatures mean equal route lists. |
| Signatures.CommaBreaksSignature | dns/resolved.go:1073-1094 | A comma inside a domain makes two configurations share a signature. |
| Signatures.RoutesHaveDistinctNames | dns/resolved.go:1073-1094 | Route names are pairwise different. |
| Signatures.SelectedRoutesClean | dns/resolved.go:1052-1094 | Selected routes meet the signature's conditions when no text holds a separator. |
| Signatures.RefreshIsSound | dns/resolved.go:708-727 | After any run of refreshes, one that meets no error leaves the requested routes in force, answered as by a fresh rebuild if and only if it rebuilt or no failed attach took one of their names. |
| Signatures.FailedAttachBreaks | dns/resolved.go:755-798 | A failed refresh breaks a healthy provider exactly when it attached a name in use, and going back to the configuration in use is then skipped and repairs nothing. |
| Signatures.FailedAttachExample | dns/resolved.go:755-798 | The smallest case: the first new client takes the name in use and the second fails to attach. |
| Signatures.HealthyIffUndamaged | dns/resolved.go:708-798 | Over every run the installed clients answer as the remembered routes say if and only if no failed installation since the last one attached a name of those routes. |
| Signatures.InstalledWhole | dns/resolved.go:755-798 | An installation that goes through gives every route its open client and detaches the names no longer used. |
| Signatures.InstalledPart | dns/resolved.go:755-798 | One that stops leaves the clients attached so far closed and every other client as it was. |
| Signatures.QuestionReachesServers | dns/resolved.go:1052-1118 | In a healthy provider a question reaches the servers of a selected input with the longest matching domain, and is left unanswered only if no input has one. |
| Signatures.Upstream.SetUpstreamConfig | dns/resolved.go:755-798 | Installing all clients and detaching unused names, or closing the new clients when an attach or the router fails, in any order of attaching. |
| Signatures.Upstream.RefreshUpstreams | dns/resolved.go:708-727 | Skips on an equal signature; a healthy object ends with the requested routes. |
| Direct.ManagedNeverUpstream | dns/direct.go:126-284 | Over every run an active managed server is neither among the remembered upstreams nor among the servers of a client that forwards, and nothing forwards once the provider is closed. |
| Direct.InactiveMeansOriginal | dns/direct.go:126-329 | Over every run an inactive provider holds the original file if and only if the last attempt on the file succeeded or left the original. |
| Direct.FileOverRuns | dns/direct.go:126-329 | Over every run, what the file holds follows from how the last attempt on it ended. |
| Direct.TornRestore | dns/direct.go:286-329 | The next restore repairs a leftover exactly when it is the original, absent or recognisably owned. |
| Direct.SetAndUnsetRepairs | dns/direct.go:126-194 | Whatever a torn write left, setting and unsetting a server without failures puts the original back. |
| Direct.TruncatedRestoreIsLost | dns/direct.go:286-329 | A restore that truncates the file and fails is followed by a retry that reports success and leaves the empty file. |
| Direct.ForeignFileIsKept | dns/direct.go:286-329 | A restore never touches a present file that is not recognisably owned. |
| Direct.FailedRestoreIsRetried | dns/direct.go:165-231 | In every run a failed restore keeps the server active, and the next attempt puts the original back if and only if the failure left something a restore can undo. |
| Direct.ForwardsIffUndamaged | dns/direct.go:126-284 | Over every run, until closed, requests reach the remembered upstreams if and only if setting the router has not failed since the last new client went in. |
| Direct.FailedRouterIsNotRepaired | dns/direct.go:233-284 | After such a failure a refresh that asks for the remembered upstreams is skipped, reports success and repairs nothing. |
| Direct.ManagedIsOwned | dns/direct.go:343-353 | The managed file is recognised as owned. |
| Direct.ManagedNamesServer | dns/direct.go:343-349 | The managed file has one nameserver line, the server's. |
| Direct.UpstreamsChosen | dns/direct.go:233-256 | The upstreams are exactly the usable original servers if one of them is not excluded, and otherwise exactly the usable fallbacks. |
| Direct.DirectProvider.Refresh | dns/direct.go:233-284 | Original servers without the excluded ones, else fallbacks; a refused client changes nothing, and one attached before setting the router fails stays attached though closed. |
| Direct.DirectProvider.Set | dns/direct.go:126-161 | Success leaves the server active, a file that names only it and upstreams without it; in every outcome the file stays restorable. |
| Direct.DirectProvider.RestoreIfOwned | dns/direct.go:286-329 | Replaces only a missing or owned file. |
| Direct.DirectProvider.Unset | dns/direct.go:165-194 | Deactivates only after a successful restore and a refresh of the upstreams. |
| Direct.DirectProvider.Shutdown | dns/direct.go:198-231 | Nothing forwards afterwards; repeatable until the restore has succeeded. |
| Connmark.NormalizeMarks | connmark/connmark.go:159-180 | Succeeds exactly for non-zero masks and distinct selectors that do not overlap; the result is pairwise disjoint. |
| Connmark.DisjointNeverBoth | connmark/connmark.go:182-185 | Selectors are disjoint exactly when no mark matches both. |
| Connmark.MatchedReply | connmark/connmark.go:187-193 | Saving and restoring a matched mark gives a mark that matches exactly the same selectors. |
| Connmark.UnmatchedReply | connmark/connmark.go:187-193 | For an unmatched packet and any mark the connection carries, this holds if and only if no selector matches that mark or 0. |
| Connmark.ZeroSelectorMarksReplies | connmark/connmark.go:187-193 | A concrete selector that matches 0 marks replies. |
| Connmark.MarkedConnectionMarksReplies | connmark/connmark.go:187-193 | A connection whose earlier packet was marked marks the reply to a later unmarked one. |
| Connmark.ReplyFollowsSameRules | routing/compiler.go:156-192 | The reply is decided by the compiled rules as the packet itself, for every marked packet, and for an unmarked one when nothing marks its reply. |
| Subnet.NewSystemNetworks | subnet/system.go:12-23 | Collects exactly the addresses and networks of the usable entries. |
| Subnet.NetContains | subnet/system.go:96-128 | Normalising succeeds exactly for a valid address with a fitting mask, and the network holds exactly the addresses of its kind that agree with it in the masked bits. |
| Subnet.OverlapIsExact | subnet/system.go:141-143 | The overlap test holds exactly when the networks share an address. |
| Subnet.UsesSubnet | subnet/system.go:38-61 | The loops compute the collision test on the normalised candidate; what is no network is not in use. |
| Subnet.UsedIff | subnet/system.go:38-61 | A candidate is used exactly when it is one of the host's networks or holds an address the host uses, apart from networks of mask length below 8. |
| Subnet.UsedByReports | subnet/system.go:38-128 | The collision test holds exactly when some report stands in the way of the candidate. |
| Subnet.AcceptsSubnet | subnet/system.go:12-61 | From what the host reports to what is accepted, in terms of the reported addresses and masks: a candidate is rejected if and only if it is a network and a reported address lies in it, a reported network equals it, or one of mask length 8 or more shares an address with it. |

## Left out

- Netlink, ioctl, D-Bus, nftables, sockets, JSON and file-system calls: replaced by abstract objects whose calls may fail; clocks are armed or unarmed timers.
- `applyDesired`, `refreshLocked`, `CompileDesiredState`, `planTunAddrReconciliation` and `updateDefaultTunAddrsLocked` are split into one method per stage; the order of calls is the source's.
- Managers.DeleteOwnedRules: rules whose fields the library cannot express are outside the model.
- Protocol.NoChangeIsLost: one event is delivered per main-table change.
- RoutingManager.Manager.Apply: where the change may not start, as after a failed attempt at a third policy with another base in the same block, only that nothing foreign changes is stated.
- DefaultTuns.DefaultTun.RestoreRouting: the kernel is not part of the class; `Recovery.UpdateOrRestore` has the same calls on it.
- RoutingManager.Manager.Close: waiting for the monitor goroutine and closing the adapter are not part of the class; `Protocol` has the stop as a step.
- Serving.QuiescentIsUpToDate: the 64-bit version counter does not wrap.
- TunLinks.SetPrefixes: deleting an IPv4 address never takes secondary addresses with it, as with promotion of secondaries enabled.
- Upstreams.SelectInputs: texts of resolved's replies are given; failed replies end the call before the selection.
- Resolved.NormalizedDomain: case folding and trimming cover ASCII.
- Signatures.SameSignatureSameRoutes: the text of a server address is a parameter.
- Direct.ManagedNeverUpstream: upstreams are compared as servers rather than as URL texts; parsing resolv.conf is not part of this model.
- Lifecycle.System.BuildDefaultTun: DNS server, p-mark checker, connmark and killswitch steps inside a build are one step that may fail.
- openresolv and Debian resolvconf providers: the same state machine as the direct provider.
- Host detection, capabilities, process rules, matchers, hosts file and command-line tools: shallow or resting on libraries.
