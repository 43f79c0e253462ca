# AntigravitiProxi: a verified model

This project models the parts of AntigravitiProxi that change a host or judge it, and proves what they keep. It is
written in Dafny 4.11; `dafny verify dfyconfig.toml` checks all of it.

## What is modelled

**The crash-safe network transaction of Agent Tunnel** (the main part).

* `AtomicFile` is the two-file atomic write, one system call at a time, with a log of every state the disk passes
  through and a crash semantics in which a directory entry may or may not have reached the disk.
* `RoutingOwnership` is the reserved routing namespace (table 20229, priorities 19000 to 19031, the interface
  `antigravity-tun`), the deltas derived from two snapshots, their merge, the preflight, the verification after a
  recovery, and the ownership check of the root helper. `Ordering` holds the sorted duplicate-free lists they rest on.
* `HostNetwork` and `TunnelJournal` are the kernel's routing state with the three recovery commands, and the journal
  with its decoder and its two files.
* `TunnelMachine` puts these together: one control plane with a program counter inside every operation, one helper
  process, three journal files, the routing state, and a host that may add and remove anything else at any time. A crash
  is enabled between any two file or network actions. `TunnelInvariant` is the inductive invariant; `TunnelSafety` states
  what every run keeps; `TunnelCounterexamples` builds two runs that show why its damage conditions cannot be dropped, and
  `OrphanedHelper` says what depends on the helper dying with its control plane.
* `OwnershipHistory` traces the claims of every journal of a run back to the networks it has seen. `ForeignState` says
  exactly which foreign routes and rules recoveries can never take away.
* `RecoveryRuns` shows that a recovery ends in the same network wherever it is interrupted. `RecoveryConvergence` counts
  what one run of the commands and its repetitions achieve, and `RepeatedRecovery` what calling the whole recovery again
  and again achieves, with the journal read and the claims derived anew in every call.
* `TunnelControl` is the code itself: the methods of the control plane, with their loops and error returns. Every atomic
  effect is a step of the machine, so each method is a piece of a run and inherits everything runs keep.

**Assurance.** `ProcessTree` and `ProcessRules` are the process inventory, a breadth-first closure over parent links that
may be cyclic. `PidAttestation` joins live connections with socket owners. `Assurance` is the verdict.

**The rest of the data plane.** `Addresses` and `KillSwitch` are the routing table and forward chain of kernel-hard mode;
`ManagerGenerations` is one manager with many processes, their waiting goroutines and the health reads; `EventHub` is the
activity feed; `HostsText` and `HostsOverride` are the marked block in the hosts file and its expiry. `Text` holds the
string operations they share, and `Wrappers` the optional value.

## Main results

* Every state of every run, with crashes anywhere: helper state implies a durable journal that claims it
  (`TunnelSafety.WriteAheadSafety`); with damage allowed, the one window in which it does not
  (`TunnelSafety.SilentLossOnlyInTheWindow`).
* Foreign state: what survives all recoveries, exactly (`ForeignState.SparedExactly`,
  `TunnelSafety.BaselineSurvivesEverything`), who may be running meanwhile (`TunnelSafety.LiveOwnerExclusion`,
  `OrphanedHelper.OrphanIsTouchedExactly`), and where claims come from (`OwnershipHistory.RootHelperAcceptsExactly`).
* Recovery converges from every interruption (`RecoveryRuns.InterruptionsDoNotMatter`); when an undisturbed recovery
  succeeds and what a failed one leaves (`TunnelControl.ControlPlane.RecoverStaleNetworkState`); and how many calls it
  takes, exactly (`RepeatedRecovery.RepeatedCallsSucceedExactly`).
* The atomic write at every system call (`AtomicFile.FileSystem.Write`, `AtomicFile.PowerLossLeavesOldOrNew`).
* Assurance: the process tree is the reachable set in any listing (`ProcessTree.BuildAgentProcessTree`,
  `ProcessTree.ReportIgnoresOrder`), and what "verified" means (`Assurance.VerifiedExactly`).
* The kill-switch on every packet (`KillSwitch.HardNetwork.InstallHardFirewall`, `KillSwitch.NamespaceTrafficFlows`),
  health over unlocked reads (`ManagerGenerations.ProxyHealthRestsOnTheLatestRun`), the event feed under every interleaving
  (`EventHub.CopyAndOffersPartitionASuffix`), and the hosts round trips with their exact conditions
  (`HostsOverride.RemovingUndoesSetting`, `HostsOverride.ExpiryUndoesSetting`).

## How the model reads the program

* A snapshot of the network is one atomic observation. The lines printed by `ip` are modelled by what the program extracts
  from them: the table of a route and the priority of a rule. Entries carry the name of who created them; no operation
  looks at it, and the theorems are about it.
* In the tunnel machine an atomic write is one step whose interrupted outcomes are `AtomicFile.WriteOutcome`. A crash of
  the machine is the death of a process: `AtomicFile.FileSystem.Write` proves that at every system call of the real
  sequence another process finds one of these outcomes. A loss of power is a separate matter, because a removal, a rename
  or a write whose directory sync failed may be undone by it; `AtomicFile.PowerLossLeavesOldOrNew` says what it leaves of
  one write.
* Time-outs and polling are nondeterministic numbers of rounds. A system call, a command or a file operation may fail
  wherever the program checks for failure. In `TunnelControl` the constant `calm` stands for a run in which nothing fails
  and nobody interferes from then on, on a host with any past; guarantees of progress carry it, guarantees of safety do not.
* Assumptions taken from the program's environment: lifecycle operations are serialised; operation ids are fresh; a pair of
  PID and start time never names two processes; a helper still running when the next control plane starts is one the
  journal already names, because the helper dies with its control plane (see the next section); sing-box creates only
  rules in the reserved priorities, routes in the reserved table and routes out of its own interface. External damage to the primary journal is allowed at any time except while an orphaned helper
  runs, and the results say what it costs.
* Letters are folded as ASCII; the endpoint pattern is a parameter.

## Where the program and its descriptions differ

The model follows the code.

* `docs/KERNEL_ISOLATION.md` says that traffic arriving from the veth is routed to the VPN and that the chain drops by
  cgroup. The policy rules select by the namespace's two source addresses and the chain matches the incoming interface;
  `KillSwitch.OnlyTheNamespaceIsRerouted` and `KillSwitch.NothingLeaks` state both.
* The setup checks that the veth, the rule priority and the nftables table are unused, but not that table 20240 is empty.
  A route left there takes traffic away from the VPN; the chain then drops it. `KillSwitch.RoutedAsIntended` gives the
  exact condition, `KillSwitch.StaleRouteBlocksTraffic` the consequence.
* `internal/proxy/health.go:28-31` says that a reachable port alone is never healthy. In proxy mode the verdict asks for a
  reachable port and a readiness flag, not for listener ownership; the flag is what
  `ManagerGenerations.ProxyHealthRestsOnTheLatestRun` is about.
* `internal/antigravity/hosts.go:70-72` says that expiry removes only the override whose ownership is proven. It removes
  the block that held the owned line and every further complete block: `HostsOverride.SecondBlockGoesToo` is the input,
  `HostsOverride.ExpiryRemovesOnlyTheProvenBlock` the exact condition.
* Disabling the hosts override leaves its metadata behind, so the expiry that runs at a later startup refuses, unless the
  text that the removal left looks owned again (`HostsOverride.DisabledOverrideIsRefusedLater`).
* `internal/proxy/process_linux.go:10-17` asks the kernel to stop the helper when the control plane dies. Linux drops that
  request when an executable with file capabilities is started, and `internal/proxy/linux_privileged_helper_linux.go:147`
  gives sing-box such capabilities, so the assumption that the helper dies may fail. Between the launch and the activation
  the journal names no process, and the next recovery then works on the network of a running helper
  (`OrphanedHelper.OrphanBeforeActivation`); `OrphanedHelper.OrphanIsTouchedExactly` gives the exact condition on the
  journal files. All other results about runs rest on the assumption.
* A recovery that is cut off between moving a damaged primary journal away and rewriting it leaves state that the next
  load reports as "nothing open" (`TunnelCounterexamples.WindowLosesTheJournal`); this is the only such window
  (`TunnelSafety.SilentLossOnlyInTheWindow`).
* In the shipped program the egress evidence never becomes complete, because the UDP and QUIC observers are not set
  (`internal/proxy/egress.go:111-126`). `Assurance` takes the egress evidence as an arbitrary input.

## Model

| member | source | states |
|---|---|---|
| AtomicFile.FileSystem.StageTemp | internal/atomicfile/write.go:62-81 | no name but temporary ones changes while the new contents are written and synced, whatever fails |
| AtomicFile.FileSystem.WriteReplace | internal/atomicfile/write.go:60-89 | in every state on the way the name holds its old contents or exactly the new data, synced; an error may come after the rename; success means the new data is durable |
| AtomicFile.FileSystem.Write | internal/atomicfile/write.go:15-41 | in every state on the way, also when the call fails, another process finds old target with old or freshly kept backup, or new target with the old target kept; a loss of power there exposes only safe points; success gives target = data and previous-good = old target, durable, and touches no other file |
| AtomicFile.FileSystem.WriteDirect | internal/atomicfile/write.go:46-58 | the same replacement of a single name, without a kept value |
| AtomicFile.PowerLossLeavesOldOrNew | internal/atomicfile/write.go:11-41 | after a loss of power at any point, whatever had reached the disk before, both files are whole, each an earlier value, or the target is new and the value it replaced is in the backup |
| AtomicFile.CrashLeavesAWriteOutcome | internal/atomicfile/write.go:11-41 | if the directory had been synced before, what a loss of power leaves is what an interrupted process leaves |
| RoutingOwnership.ReservedOwnsExactlyTheNamespace | internal/proxy/routing_ownership.go:14-33 | the reserved record owns table 20229 and priorities 19000 to 19031 in both families and nothing else, in canonical lists |
| RoutingOwnership.CanonicalListsDecideKeys | internal/proxy/linux_privileged_helper_linux.go:85-107 | two records with canonical lists own the same keys exactly when the lists are equal |
| RoutingOwnership.MergeLists | internal/proxy/routing_ownership.go:49-79 | the merge of two lists is their union, sorted and free of duplicates |
| RoutingOwnership.MergeOwnedNetworkDelta | internal/proxy/routing_ownership.go:35-47 | the merged record owns exactly what either record owns, with sorted duplicate-free lists |
| RoutingOwnership.MergeIsAFunction | internal/proxy/routing_ownership.go:35-79 | that description leaves no freedom: any two merges of the same records are equal |
| RoutingOwnership.NewRouteTables | internal/proxy/network_state.go:393-412 | exactly the tables that the second listing names and the first does not |
| RoutingOwnership.NewRulePriorities | internal/proxy/network_state.go:424-443 | exactly the priorities that the second listing shows and the first does not |
| RoutingOwnership.DeriveOwnedNetworkDelta | internal/proxy/network_state.go:381-391 | the delta owns exactly the keys that are new, never the main table |
| RoutingOwnership.PreflightPlatformNetworkOwnership | internal/proxy/network_state_linux.go:58-89 | passes if and only if no reserved table or priority is in use in either family |
| RoutingOwnership.VerifyOwnedDeltaAbsent | internal/proxy/network_state.go:455-485 | passes if and only if no owned key is left |
| RoutingOwnership.ReservedIsSound | internal/proxy/network_state.go:171-192 | a new journal's claim is disjoint from its baseline exactly when the preflight passes |
| RoutingOwnership.MergeKeepsOwnershipSound | internal/proxy/network_state.go:217-219 | merging a delta keeps the claims disjoint from the baseline and containing the namespace |
| RoutingOwnership.CleanImpliesRestartable | internal/proxy/network_state.go:330-346 | a snapshot that lets a recovery finish passes the preflight of the next start |
| RoutingOwnership.ValidateReservedTunnelOwnership | internal/proxy/linux_privileged_helper_linux.go:77-107 | accepts exactly the reserved record, list by list; acceptance implies that nothing outside the namespace is claimed |
| RoutingOwnership.AcceptedExactly | internal/proxy/linux_privileged_helper_linux.go:77-107 | on every record with sound ownership the list comparison accepts if and only if nothing outside the namespace is claimed |
| RoutingOwnership.ChainIsReservedExactlyWhenEveryDeltaIs | internal/proxy/routing_ownership.go:35-47 | a record built by merging deltas into the reserved one stays inside the namespace exactly when every delta did |
| OwnershipHistory.EveryJournalHasAHistory | internal/proxy/network_state.go:182-303 | every journal of every run, in either file or in memory, claims the reserved namespace merged with deltas between its baseline and networks the run has seen |
| OwnershipHistory.RootHelperAcceptsExactly | internal/proxy/linux_privileged_helper_linux.go:22-107 | the root helper accepts a primary journal of a run if and only if every delta observed and merged into it lies inside the namespace |
| HostNetwork.CommandTouchesOnlyOwned | internal/proxy/network_state_linux.go:99-132 | any recovery command removes only entries with an owned key or out of the tunnel interface, and adds nothing |
| TunnelJournal.DecodeInvertsEncode | internal/proxy/network_state.go:89-106 | a written journal is read back unchanged, but for the runtime flag, exactly when schema, operation id and phase are acceptable |
| TunnelInvariant.NextKeeps | internal/proxy/network_state.go:160-347 | the invariant is kept by every step, crashes and damage included |
| TunnelInvariant.Reachable | internal/proxy/network_state.go:160-347 | every state of every run satisfies the invariant |
| TunnelSafety.WriteAheadSafety | internal/proxy/network_state.go:160-194 | in every state of every undamaged run: if anything of a helper exists, a decodable open primary claims the whole namespace and every helper entry outside the interface |
| TunnelSafety.SilentLossOnlyInTheWindow | internal/proxy/network_state.go:304-310 | with damage allowed: helper state exists and nothing is reported open exactly when a recovery was cut off between quarantine and rewrite |
| TunnelSafety.LaunchFindsNothingLeft | internal/proxy/tunnel.go:277-298 | a helper is never launched while anything of an earlier one is left, not even after the window |
| TunnelSafety.LiveOwnerExclusion | internal/proxy/network_state.go:282-312 | the network is changed only while no helper runs and the recorded process is gone, PID reuse included |
| OrphanedHelper.HelperMeansJournalFile | internal/proxy/network_state.go:160-194 | in every state of every run, damaged or not, a running helper means that a primary journal file exists |
| OrphanedHelper.OrphanIsTouchedExactly | internal/proxy/network_state.go:108-294 | a control plane started beside an orphaned helper can come to issue a network command while that helper runs if and only if the files load as a journal that does not name the helper |
| OrphanedHelper.OrphanBeforeActivation | internal/proxy/tunnel.go:287-304 | a run in which the control plane dies between launch and activation, the helper outlives it, and the next recovery deletes the interface under it |
| TunnelSafety.JournalsNeverClaimTheBaseline | internal/proxy/network_state.go:160-221 | in every state both journal files keep their claims disjoint from their baseline |
| TunnelSafety.BaselinePreservation | internal/proxy/network_state_linux.go:99-206 | a recovery command never removes a rule or route whose key the baseline had, unless the route leaves by the tunnel interface |
| TunnelSafety.OwnershipFreeze | internal/proxy/network_state.go:217-220 | from a durable active journal on, while the primary decodes, claims, baseline and recorded owner never change |
| TunnelSafety.SparedStateSurvives | internal/proxy/network_state.go:296-312 | a spared entry survives every later start, stop, crash and recovery unless something else removes it, and every damage to the primary if the backup spares it as well |
| TunnelSafety.BaselineSurvivesEverything | internal/proxy/network_state.go:171-194 | what was on the host while no transaction was open is never lost to any sequence of recoveries, however often the primary journal is damaged |
| TunnelSafety.RecordedBaselineSurvivesEverything | internal/proxy/network_state.go:117-141 | neither is what the baselines of both journal files show |
| ForeignState.SparedExactly | internal/proxy/network_state.go:108-310 | between operations a foreign entry survives every continuation if and only if the primary, and with damage also a backup that could answer for it, spares its key: a check on the two files |
| ForeignState.Loss | internal/proxy/network_state.go:126-141 | otherwise there is a run of restarts and one recovery, after damage if need be, that deletes it |
| TunnelSafety.BackupCoherence | internal/proxy/network_state.go:117-141 | primary and backup always belong to one operation; while anything of a helper exists that operation is not the one recorded as clean |
| TunnelSafety.CleanStatePassesPreflight | internal/proxy/network_state.go:330-346 | in every run, the state in which a recovery verifies passes the next preflight and holds no helper entry outside the interface |
| TunnelCounterexamples.WindowLosesTheJournal | internal/proxy/network_state.go:304-310 | a run with one damaged primary and two crashes that leaves the interface behind and loads as "nothing open" |
| TunnelCounterexamples.FallbackClaimsLaterRules | internal/proxy/network_state.go:300-303 | a run in which, after damage, the fallback journal claims and deletes a rule that appeared after activation |
| RecoveryConvergence.RemovedEverywhere | internal/proxy/network_state_linux.go:165-178 | one complete run leaves no owned key if no owned priority holds more than eight rules |
| RecoveryConvergence.RerunConverges | internal/proxy/network_state_linux.go:99-145 | for given claims, cutting the commands off anywhere and issuing them again ends in the network of the uninterrupted run |
| RecoveryRuns.ClaimsAreDetermined | internal/proxy/network_state.go:296-303 | what a recovery claims is a function of the journal and the network, whatever order the listing has |
| RecoveryRuns.RerunClaimsNothingNew | internal/proxy/network_state.go:300-303 | before activation every recovery derives its claims again; a later one on what an earlier one has left claims nothing new |
| RecoveryRuns.FinishedMeansCleared | internal/proxy/network_state.go:274-347 | however often it was cut off, given up, crashed and restarted, while processes come and go, a recovery that has closed the transaction without losing the journal has removed the interface and exactly what it claimed at first |
| RecoveryRuns.InterruptionsDoNotMatter | internal/proxy/network_state.go:274-347 | two recoveries of one transaction on one network end in the same network, wherever either was interrupted, for any number of rules and whatever processes start or exit; nobody else changes the network meanwhile |
| RecoveryRuns.AllCutsConverge | internal/proxy/network_state.go:300-346 | cut in any state of its course and taken to its end in any way, whatever processes start or exit, a recovery ends as it would have uninterrupted |
| RecoveryConvergence.NineRulesNeedTwoRuns | internal/proxy/network_state_linux.go:165-178 | for every owned priority a network with nine rules on which a second run still changes something |
| RecoveryConvergence.RerunIsIdempotentExactly | internal/proxy/network_state_linux.go:165-178 | a second run changes nothing if and only if every owned priority held at most eight rules |
| RecoveryConvergence.EachRunRemovesEight | internal/proxy/network_state_linux.go:147-179 | n complete runs of the commands for one record remove the smaller of 8n and the number of rules at every owned priority |
| RecoveryConvergence.RepeatedRunsReachClean | internal/proxy/network_state_linux.go:99-179 | after n complete runs of the commands for one record, verification of that record passes if and only if no owned priority held more than 8n rules |
| RepeatedRecovery.OneCallSucceedsExactly | internal/proxy/network_state.go:274-347 | an undisturbed recovery succeeds if and only if the journal is readable, its owner gone, and no priority it claims on the network held more than eight rules |
| RepeatedRecovery.OneMoreCall | internal/proxy/network_state.go:300-338 | what a failed undisturbed recovery leaves needs exactly one call less |
| RepeatedRecovery.RepeatedCallsSucceedExactly | internal/proxy/network_state.go:274-347 | the n-th of successive undisturbed recoveries, each reading the journal and deriving its claims anew, succeeds if and only if the journal was readable, its owner gone, and no priority it claimed at first held more than 8n rules |
| RepeatedRecovery.CallsRecoverForTheFirstClaims | internal/proxy/network_state.go:296-338 | every one of these recoveries issues its commands for exactly what the first one claimed |
| RepeatedRecovery.EachCallRemovesEight | internal/proxy/network_state_linux.go:147-179 | n successive recoveries remove the smaller of 8n and the number of rules at every priority claimed by the first |
| TunnelControl.ControlPlane.WriteTunnelJournal | internal/proxy/network_state.go:151-158 | success leaves the journal in the primary and the replaced value in the backup; failure leaves one of the outcomes of an interrupted write and touches nothing else |
| TunnelControl.ControlPlane.PersistCleanJournal | internal/proxy/network_state.go:233-250 | success leaves the last-clean record and no other journal file |
| TunnelControl.ControlPlane.WriteLastClean | internal/proxy/network_state.go:234-242 | changes the last-clean record at most; primary, backup and network stay as they are, also on failure |
| TunnelControl.ControlPlane.DeleteRulePriority | internal/proxy/network_state_linux.go:147-179 | the bounded loop removes the smaller of eight and the number of rules at that priority and nothing else, and issues commands for no other key |
| TunnelControl.ControlPlane.FlushRouteTable | internal/proxy/network_state_linux.go:181-206 | removes exactly the routes of that table |
| TunnelControl.ControlPlane.DeleteTun | internal/proxy/network_state_linux.go:101-107 | removes the interface and exactly the routes out of it |
| TunnelControl.ControlPlane.RecoverPlatformOwnedNetworkState | internal/proxy/network_state_linux.go:99-145 | commands only for owned keys; undisturbed, the exact recovered network, and from every intermediate state a second run ends in the same network if no owned priority held more than eight rules |
| TunnelControl.ControlPlane.RunLinuxPrivilegedRecovery | internal/proxy/linux_privileged_helper_linux.go:22-51 | whatever the journal says and whatever fails, commands only inside the reserved namespace; success means that during the call the primary held a recovering journal inside the namespace whose process was gone; undisturbed, it succeeds exactly then and leaves the recovered network |
| TunnelControl.ControlPlane.ReportFailure | internal/proxy/network_state.go:322-327 | recording the error issues no network command, keeps the claiming journal in the primary when undisturbed, and ends the call |
| TunnelControl.ControlPlane.ClaimCurrentDifference | internal/proxy/network_state.go:296-303 | the new claims are the old ones merged with the difference between baseline and network; with active evidence the journal is left alone |
| TunnelControl.ControlPlane.QuarantineInvalidPrimary | internal/proxy/network_state.go:252-264 | the primary is moved away exactly when the journal came from the backup |
| TunnelControl.ControlPlane.ClaimAndJournal | internal/proxy/network_state.go:296-310 | success means that a recovering journal with exactly these claims, taken on a network of the run, is durable before any command |
| TunnelControl.ControlPlane.GuardLiveOwner | internal/proxy/network_state.go:282-294 | undisturbed, passes if and only if the recorded process is gone or its PID has another recorded identity |
| TunnelControl.ControlPlane.MutateNetwork | internal/proxy/network_state.go:312-328 | failure of the commands and of the root helper ends the call; success goes on to verification; undisturbed, the network is the recovered one and the files are untouched |
| TunnelControl.ControlPlane.VerifyAbsence | internal/proxy/network_state.go:330-338 | undisturbed, passes if and only if no claimed key is in use |
| TunnelControl.ControlPlane.CheckTunGone | internal/proxy/network_state.go:339-345 | finalises the journal if and only if the interface is gone |
| TunnelControl.ControlPlane.VerifyAndFinish | internal/proxy/network_state.go:330-346 | success leaves only the clean record; undisturbed it succeeds if and only if the interface and every claimed key are gone, and otherwise the journal stays |
| TunnelControl.ControlPlane.MutateAndFinish | internal/proxy/network_state.go:312-346 | undisturbed, the network is always the recovered one, and the call succeeds if and only if no claimed priority held more than eight rules; otherwise the claiming journal stays |
| TunnelControl.ControlPlane.RecoverTransaction | internal/proxy/network_state.go:285-346 | success removes both journal files and records this operation as clean; undisturbed with the owner gone, the network is the recovered one for exactly what the journal claims on it, success or not, success is decided by the eight-rule bound on those claims, and after a failure the primary holds the claiming journal |
| TunnelControl.ControlPlane.RecoverStaleNetworkState | internal/proxy/network_state.go:274-347 | success means that no primary is left; undisturbed it succeeds if and only if the journal is readable, its owner gone and at most eight rules stand at each priority it claims; the network is the recovered one also when it fails, and then the claiming journal stays; from every state on the way of a success every completed re-run ends in that same network unless the journal was lost |
| TunnelControl.ControlPlane.BeginTunnelTransaction | internal/proxy/network_state.go:160-194 | success means a durable prepared journal that claims exactly the namespace, no backup and nothing of a helper; undisturbed it succeeds if and only if a due recovery fits in one call or, with nothing open, the namespace is free |
| TunnelControl.ControlPlane.ProveNamespaceEmpty | internal/proxy/network_state.go:164-173 | undisturbed, passes if and only if the interface and every reserved key are unused |
| TunnelControl.ControlPlane.WritePreparedJournal | internal/proxy/network_state.go:175-193 | success means that the prepared journal is durable, and that before it neither journal file was there at some point: an earlier backup is never a candidate for the new operation |
| TunnelControl.ControlPlane.MarkTunnelActive | internal/proxy/network_state.go:196-221 | success means durable active evidence with sound claims and the managed process's identity |
| TunnelControl.ControlPlane.GatherEvidence | internal/proxy/network_state.go:204-219 | the journal in memory becomes the evidence of the network as it is, with the delta merged and the process named |
| TunnelControl.ControlPlane.AbortPreparedTunnelTransaction | internal/proxy/network_state.go:223-231 | undisturbed, a prepared transaction that launched nothing ends with only its aborted record on disk and the network untouched |
| TunnelControl.ControlPlane.FinishTunnelTransaction | internal/proxy/network_state.go:349-358 | success means that no primary journal is left |
| TunnelControl.ControlPlane.StopAndWait | internal/proxy/tunnel.go:71-120 | success means that no managed process is left and no primary journal is on disk, with and without tunnel state |
| TunnelControl.ControlPlane.StartAgentTunnel | internal/proxy/tunnel.go:277-307 | success means durable active evidence with sound claims for the managed process; a failed start reports itself rolled back only if no process, no primary journal, no interface and nothing else of the helper is left |
| TunnelControl.ControlPlane.RollbackFailedAgentTunnelStart | internal/proxy/tunnel.go:338-349 | the rollback is reported done only with nothing of the helper left |
| TunnelControl.ControlPlane.WaitAgentTunnelReady | internal/proxy/tunnel.go:309-336 | readiness is reported only with the process still managed and the interface up; otherwise the call ends |
| ProcessTree.UnknownMembers | internal/antigravity/processes.go:69-76 | the helper list holds exactly the processes of the tree that are not known |
| ProcessTree.BuildAgentProcessTree | internal/antigravity/processes.go:42-100 | for any listing, cyclic or with repeated PIDs, the queue terminates and the report holds exactly the PIDs reachable from the roots, each once and in order, with the unknown ones and the hosts they mention |
| ProcessTree.Index | internal/antigravity/processes.go:43-57 | the parent index holds exactly the children, and the root list exactly the roots |
| ProcessTree.Close | internal/antigravity/processes.go:52-67 | the queue loop ends with a set that contains the roots and the children of its members, and is inside every such set |
| ProcessTree.ClosedMeansReached | internal/antigravity/processes.go:52-67 | such a set holds exactly the PIDs at the end of a chain of parent links from a root |
| ProcessTree.Assemble | internal/antigravity/processes.go:69-98 | the report lists the selection by PID, its unknown members, the sorted root PIDs and the sorted hosts without duplicates |
| ProcessTree.LearnFrom | internal/antigravity/processes.go:77-81 | exactly the lower-cased hosts of a command line that are not common ones |
| ProcessTree.ReportIgnoresOrder | internal/antigravity/processes.go:42-100 | with distinct PIDs the report is the same for every enumeration order |
| ProcessTree.RootPidsIgnoreOrder | internal/antigravity/processes.go:54-57 | the root PIDs depend on the processes, not on their order |
| ProcessRules.RootsAreKnown | internal/antigravity/processes.go:120-164 | a root is never unknown, and the control plane is neither a root nor known |
| ProcessRules.UnknownHelpersAreDescendants | internal/antigravity/processes.go:31-33 | every reported unknown helper is a descendant of a root and not a root itself |
| ProcessRules.DiscoverAgentProcessTree | internal/antigravity/processes.go:34-40 | a listing gives such a report by the product's own rules; a listing that fails gives an empty one that is not complete |
| PidAttestation.UniqueSortedPositiveInts | internal/proxy/pid_attestation.go:113-121 | exactly the positive values, sorted and without duplicates |
| PidAttestation.SortedPositiveKeys | internal/proxy/pid_attestation.go:123-132 | exactly the positive keys, sorted |
| PidAttestation.ConnectionOwners | internal/proxy/pid_attestation_linux.go:14-57 | exactly the candidates that hold a socket with the connection's source, sorted |
| PidAttestation.JoinRow | internal/proxy/pid_attestation.go:62-85 | the verdict on one connection follows the number of its owners; a failed lookup has none |
| PidAttestation.Mark | internal/proxy/pid_attestation.go:65-88 | one row adds exactly its own contribution to each summary |
| PidAttestation.JoinAll | internal/proxy/pid_attestation.go:57-90 | every connection gets its row, and the four summaries and the counter hold what the rows contribute |
| PidAttestation.Summarise | internal/proxy/pid_attestation.go:92-98 | each summary list holds exactly the PIDs or paths for which some row says so, sorted |
| PidAttestation.AttestAgentPidRoutes | internal/proxy/pid_attestation.go:41-98 | available exactly with a candidate and a readable tracker; then a row per connection and summaries that say exactly what the rows say |
| Assurance.AttestAgentRoutes | internal/proxy/observability.go:166-198 | available exactly with a readable tracker; then counts exactly the product connections and those among them outside vpn-direct |
| Assurance.SummariesSpeakForRows | internal/proxy/pid_attestation.go:57-98 | empty summaries mean that every row is beyond doubt, and an active PID means an owned row |
| Assurance.LengthsDecideEquality | internal/app/attestation.go:140-142 | comparing the two lengths decides equality of the two lists |
| Assurance.VerifiedExactly | internal/app/attestation.go:109-150 | "verified" if and only if the tunnel is active, the tree is complete and known, no product connection strays, every row is beyond doubt, some row is owned and egress coverage is complete |
| Assurance.DoubtfulRowDegrades | internal/app/attestation.go:125-130 | with the tunnel active one doubtful row forces "degraded" whatever the other evidence says |
| Assurance.MissingEvidenceIsPartial | internal/app/attestation.go:131-148 | without contradictory evidence the verdict is "partial" exactly when something is missing, and never "degraded" |
| KillSwitch.HardNetwork.CopyFamily | internal/proxy/kernel_isolation_linux.go:399-427 | one family's loop copies exactly the eligible host routes, the last one per host, and lists exactly their hosts |
| KillSwitch.HardNetwork.CopyHostTransportRoutes | internal/proxy/kernel_isolation_linux.go:384-430 | the same for both families; a listing that cannot be read is an error |
| KillSwitch.HardNetwork.InstallHardRoutes | internal/proxy/kernel_isolation_linux.go:335-361 | success leaves the two source rules, both VPN defaults and the copied host routes, and every other prefix as it was |
| KillSwitch.HardNetwork.InstallHardFirewall | internal/proxy/kernel_isolation_linux.go:432-460 | the ordered chain accepts a packet if and only if it does not come from the veth, belongs to an established flow back to it, goes to a copied host, or leaves by the VPN |
| KillSwitch.OnlyTheNamespaceIsRerouted | internal/proxy/kernel_isolation_linux.go:341-342 | the policy rules select exactly the namespace's two addresses |
| KillSwitch.RoutedAsIntended | internal/proxy/kernel_isolation_linux.go:335-430 | longest-prefix match always finds a route: a copied host by its last main-table route, any other by the VPN exactly when nothing more specific was in the table before |
| KillSwitch.NothingLeaks | internal/proxy/kernel_isolation_linux.go:432-460 | a new packet from the veth that leaves outside the VPN is accepted exactly for a copied host, which is public; nothing from another interface is dropped |
| KillSwitch.NamespaceTrafficFlows | internal/proxy/kernel_isolation_linux.go:335-460 | routing and filtering agree: namespace traffic is accepted exactly when its route is the VPN's or its host's own, hence always on a table that was empty |
| KillSwitch.StaleRouteBlocksTraffic | internal/proxy/kernel_isolation_linux.go:462-478 | a host route left in the table outside the VPN is chosen and its traffic dropped |
| EventHub.NextKeeps | internal/app/events.go:21-65 | the bookkeeping of history and subscribers is kept by every step |
| EventHub.HistoryIsTheLast300 | internal/app/events.go:21-27 | in every interleaving the history is the last 300 published events, or all of them |
| EventHub.CopyAndOffersPartitionASuffix | internal/app/events.go:36-54 | replayed, still to replay, delivered live and dropped events partition exactly a suffix of the published sequence, up to the present while subscribed |
| EventHub.NoEventTwice | internal/app/events.go:28-54 | a channel never carries one event twice; replay and live events each keep publication order |
| EventHub.OrderedExactlyWhenReplayCameFirst | internal/app/events.go:28-54 | the whole channel is in publication order if and only if no live event precedes a replayed one |
| EventHub.DropsOnlyWhenFull | internal/app/events.go:28-33 | an event is dropped for a subscriber only when 32 are waiting |
| EventHub.NothingDroppedWhileThereIsRoom | internal/app/events.go:28-33 | a subscriber whose channel was never full has lost nothing |
| EventHub.QuietAfterCancel | internal/app/events.go:46-63 | cancelled and with the replay over, a channel never receives anything again |
| EventHub.CancelledMaySendExactlyWhileReplaying | internal/app/events.go:46-63 | after cancel more can arrive if and only if the replay has events left and room |
| EventHub.Hub.Publish | internal/app/events.go:21-35 | appends to the history, keeps the last 300, and offers to every client without blocking |
| EventHub.Hub.OfferAll | internal/app/events.go:28-33 | the loop over the clients gives each one exactly one offer and touches no other channel |
| EventHub.Hub.Subscribe | internal/app/events.go:36-44 | joins the clients and copies the history in one critical section |
| EventHub.Hub.ReplayTurn | internal/app/events.go:46-54 | sends the next event of the copy, ends, or waits exactly when the channel is full and not cancelled |
| EventHub.Hub.Receive | internal/app/events.go:36-37 | takes the oldest waiting event |
| EventHub.Hub.Close | internal/app/events.go:56-58 | the first half of cancel leaves the subscription listed |
| EventHub.Hub.Leave | internal/app/events.go:59-61 | the second half leaves the client map |
| ManagerGenerations.NextKeeps | internal/proxy/manager.go:415-469 | the relation between the manager's fields, its goroutines and the processes is kept by every step |
| ManagerGenerations.OneProcessOneWaiter | internal/proxy/manager.go:415-469 | a process is managed exactly when the mode is not off; it is the latest, nothing else runs, and only its goroutine waits |
| ManagerGenerations.NoWaiterClearsANewerProcess | internal/proxy/manager.go:451-460 | a goroutine's clearing section only ever clears the process it waited for |
| ManagerGenerations.ReadyWasConfirmedInThisGeneration | internal/proxy/manager.go:126-130 | a raised readiness flag was raised by the poll of the latest process, after its start |
| ManagerGenerations.ProxyHealthRestsOnTheLatestRun | internal/proxy/health.go:32-69 | over unlocked reads, proxy-mode "healthy" rests on a flag confirmed in the latest generation, and on that very process when nothing was started in between |
| ManagerGenerations.Manager.StartLocked | internal/proxy/manager.go:415-469 | success starts a new generation with the flag lowered; failure changes nothing |
| ManagerGenerations.Manager.WaitReturned | internal/proxy/manager.go:451-460 | clears the handle and the mode only for its own process |
| ManagerGenerations.Manager.MarkProxyReadinessConfirmed | internal/proxy/manager.go:126-130 | raises the flag for the polled generation |
| ManagerGenerations.Manager.StopAndWait | internal/proxy/tunnel.go:71-120 | success means that no process is managed and the mode is off; a process that cannot be signalled ends the call at once |
| ManagerGenerations.Manager.Health | internal/proxy/health.go:32-97 | proxy-mode "healthy" implies reachability, no open journal and a flag confirmed for the managed process; off is idle or, with an open journal, degraded |
| ManagerGenerations.Manager.StartSafeProxy | internal/app/app.go:466-517 | success means that the latest process was started as a proxy and confirmed ready in its own generation, with at most one start |
| ManagerGenerations.Manager.PollUntilReady | internal/app/app.go:490-516 | the loop confirms only the process it polls; otherwise the start is rolled back |
| HostsText.FindsTheFirst | internal/antigravity/hosts.go:107-108 | the search finds the first occurrence, or there is none |
| HostsText.RemovalBelow | internal/antigravity/hosts.go:120-123 | a block below text without a start marker is removed exactly; below text with one, part of that text goes as well |
| HostsText.EntryHasNoEnd | internal/antigravity/hosts.go:46-46 | an entry of two words never contains the end marker |
| HostsOverride.RemovingUndoesSetting | internal/antigravity/hosts.go:45-46 | removing after setting gives the block-free text with one closing line break if and only if no stray start marker was left in it |
| HostsOverride.LastSettingWins | internal/antigravity/hosts.go:45-46 | setting twice is setting the second, under the same condition and no other |
| HostsOverride.RemovalTouchesOnlyBlocks | internal/antigravity/hosts.go:120-123 | a text is left alone if and only if it has no complete block |
| HostsOverride.HasOwnedHostsLine | internal/antigravity/hosts.go:106-119 | true exactly when a line between the first start and the first end marker has the two recorded fields |
| HostsOverride.OwnedAfterSetting | internal/antigravity/hosts.go:106-119 | right after setting, over any text, ownership is recognised if and only if no stray end marker stands above the block or what stands above already looked owned |
| HostsOverride.ExpiryRemovesTheProvenBlock | internal/antigravity/hosts.go:94-99 | when ownership is proven, the first block removed is the one that held the owned line |
| HostsOverride.ExpiryRemovesOnlyTheProvenBlock | internal/antigravity/hosts.go:70-99 | when ownership is proven, nothing but that block and the white space after it is removed if and only if no complete block follows it |
| HostsOverride.SecondBlockGoesToo | internal/antigravity/hosts.go:70-99 | below an owned block a second block is removed with it, whatever line it holds |
| HostsOverride.ExpiryUndoesSetting | internal/antigravity/hosts.go:73-104 | for every original file, an override left alone is kept for thirty minutes; then it is undone if and only if no stray marker stands above it, and refused if and only if a stray end marker hides the owned line |
| HostsOverride.DisabledOverrideIsRefusedLater | internal/antigravity/hosts.go:61-68 | for every original file, after disabling the expiry thirty minutes later refuses if and only if what the removal left does not look owned, which holds whenever no stray start marker was left |
| HostsOverride.HostsFiles.SetHostsOverride | internal/antigravity/hosts.go:32-60 | success leaves the new text and the metadata; a failure leaves the old text or the new, and metadata only with a readable file |
| HostsOverride.HostsFiles.RemoveHostsOverride | internal/antigravity/hosts.go:61-68 | removes the blocks and leaves the metadata |
| HostsOverride.HostsFiles.ExpireHostsOverride | internal/antigravity/hosts.go:73-104 | does what its specification says on every branch; a refusal changes nothing, and a removal that fails leaves the old text or the new one and the metadata |

## Left out

- Command lines, `/proc` and JSON: parsing is modelled by its results (owners, snapshots, process lists, tables, priorities, prefixes). Text that does not parse is a value of its own where the program handles it.
- Last errors, recovery action lists, detail strings and time stamps of the journal: they never decide anything.
- The previous-good file of the last-clean record: no operation reads it.
- A last-clean record that exists but cannot be read for another reason than its contents: the program ignores it, the model has it present or absent.
- Proxy mode and kernel-hard mode inside the tunnel machine: the journal protocol is about Agent Tunnel; `ManagerGenerations` has both start modes, without the kernel-hard process.
- Loss of power inside the tunnel machine: its crashes are deaths of the control plane, after which the files are as the last system call left them.
- Root helper: its checks of the effective user, the journal path and the file owner are preconditions of `RunLinuxPrivilegedRecovery`.
- TunnelControl.ControlPlane.WaitAgentTunnelReady: does not say that the listener belongs to the process; socket ownership is an arbitrary answer there.
- Termination of the retry of a failed stop, and liveness in general: polling is bounded by its argument.
- Kernel-hard setup and cleanup, forwarding switches, cgroups, masquerading and the source address of the default route: best-effort sequences without a recovery contract. Only the resulting routes and forward chain are modelled, and rules with an earlier priority than 19240 are not.
- Zones of IPv6 addresses in the main routing table.
- Platforms other than Linux.
- Kernel queues, blocked goroutines and the garbage collection of channels in the event hub: a waiting replay is a step that is not enabled.
- Agent Tunnel evidence in `Health`: ownership, interface, VPN and journal are one arbitrary answer there.
- The time-stamped backup of the hosts file, and the text encoding of the files: text is a sequence of characters.
- Release download and verification, installation, settings, HTTP handlers, the web interface, diagnostics and public egress probes: plumbing, network input or single-record checks.
