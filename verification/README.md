# ovcp: a verified model of its state-keeping code

ovcp administers an OpenVPN server: it supervises the worker process, reads its
management connection and status file, issues and revokes certificates, and routes
each client's traffic through an upstream the administrator chose. This project models
the parts of it that keep state or do real work over unbounded data, in Dafny 4.11,
and proves what they promise. `dafny verify dfyconfig.toml` checks all of it.

## How the model is built

Code that changes state step by step is a class or a method with loops (`Router`,
`Authority`, `Limiter`, `Client`, `Reader`, `Fields`, `Sampler`, `Bot`, `Stream`,
`RelayTable`, `FillTable`, `WalkTable`, `ParseStatusFile`, ...). Each such method's
`ensures` gives its whole new state as a function of the old one; the properties
are then proved about those functions, over all inputs and all runs. Commands that can
fail (`ip`, `nft`, disk writes, listens, sockets) have their outcome as a parameter, so a
statement holds for every pattern of failures unless it names the ones it excludes. Ranging
over a Go map is an arbitrary order that the method reports as a ghost result.

| module | subject |
|---|---|
| `UpstreamConfig` | the upstream list, its validation and the administrator's four edits |
| `Netfilter` | the kernel (nft table, routes, fwmark rules), the two compilers, and what becomes of a packet |
| `KillSwitch` | what the routing half of Apply leaves behind when commands fail |
| `Egress` | the tracker of per-client rules: the step each operation takes, and `Router`, which takes it |
| `EgressReports` | what each operation of the tracker reports and leaves, whichever command failed |
| `RuleSafety` | what holds of the tracker in every run, whatever fails |
| `TrackerAgreement` | chain and tracker agree exactly while nft succeeds, and so decide every packet's mark |
| `RuleAccounts` | every rule of the chain accounted for: the default's, a tracked entry's, or an orphan |
| `PacketFates` | what becomes of a marked packet under the compiled ruleset |
| `EgressRuns` | whole runs of the server, all callbacks asynchronous: whose rule marks a session's packets |
| `EgressTurns` | the runs in order, exactly when they keep tracker and configuration in agreement, and each way out of order |
| `LineDiff` | the shortest line diff behind configuration changes |
| `Supervisor` | the worker supervisor as interleaved critical sections |
| `StopFlag` | which children are taken for crashed, and restarted |
| `CrashLoop` | when the crash-loop limit is kept, reset by reset |
| `Lines`, `Management`, `StatusFile` | the management stream, the status document, `Kill` |
| `Certificates` | certificate rows against the published revocation list |
| `LoginLimiter`, `MessageSplitter`, `SessionSampler` | the login limiter, the Telegram splitter, session accounting |
| `SocksHandshake`, `RelaySync` | the SOCKS5 client handshake, relay reconciliation |
| `Wrappers`, `Seqs`, `Bytes` | shared datatypes and sequence facts |

## What the proofs found

- The kill switch is confined exactly when the slot's flush succeeded, or its primary route
  went in, or no live foreign route was left in the slot
  (`KillSwitch.KillSwitchHolds`; `internal/upstream/upstream.go:359-375`). A deleted upstream's route that two failed
  flushes leave behind leaks the traffic of the next one in its slot (`KillSwitch.LeftoverRouteLeaks`).
- Of the rules for an address the latest decides, whosever it is, and without any the default does
  (`EgressRuns.AddressMark`). So a connected session's packets carry its tracked entry's mark, or the default's if it
  has no entry, unless another's rule is left over for its address. That is what the configuration says exactly
  when the tracker is up to date with the session, or the two marks coincide
  (`EgressRuns.SessionRoutedAsConfigured`). Runs in which callbacks are handled in time, exits are cleared before
  the next client connects and requests do not overlap keep everything up to date exactly as long as each
  assignment rewrites the right sessions (`EgressTurns.AgreedExactlyWhenOrderly`, `EgressTurns.GoodAssign`).
  The ways out of it, each with its exact condition for the traffic to be right nevertheless:
  - An assignment rewrites one session of its client (`internal/api/upstream.go:157-169`). Any other one stays on the
    old upstream, unless it has the address that the rewritten one is still listed at
    (`EgressTurns.OtherSessionKeepsOldMark`). The next Apply moves it only if it has an entry; after a
    first override it has none, and stays on the default until it reconnects or is itself rewritten
    (`EgressRuns.ApplySettles`).
  - The session to rewrite is taken from the status file, which OpenVPN rewrites every few seconds
    (`internal/controller/mgmt.go:371-381`). The rule marks the listed address at once, whoever has it now
    (`EgressTurns.RewriteMarks`), and if nobody does, its next holder (`EgressTurns.DepartedTarget`).
  - While the worker runs without management-client-auth, or the management connection is down, sessions are not
    entered (`EgressTurns.UnreportedSession`) and entries outlive theirs (`EgressTurns.UnreportedDisconnect`).
  - OnExit may run after the next worker's first client has connected (`internal/controller/supervisor.go:301-304`):
    its ClearAll takes that client's rule too, and leaves it on the default or on an orphan (`EgressTurns.LateClear`).
  - The next worker counts its session ids from the start: ESTABLISHED for an id that still has an entry
    overwrites the entry, and its rule stays in the chain until the next Apply
    (`EgressRuns.ReusedIdOrphansRule`, `EgressRuns.OrphanStays`). An address's traffic is then right exactly when
    the latest rule for it, which may be that one, has the right mark (`EgressRuns.AddressMark`).
- Apply reports success exactly when every route command, the relays, the ruleset and every overridden session's rule
  went through (`EgressReports.ApplyReports`). An `nft` that adds a rule and does not name its handle leaves a rule that
  nothing tracks (`EgressReports.EstablishReports`).
- A child marked for a stop before it is reaped is never taken for a crash, and one reaped while wanted with no stop
  marked since the reaping before is restarted once (`StopFlag.StopIsNoCrash`, `StopFlag.CrashRestartsOnce`). A stop
  that marks a child already reaped leaves its flag for the next one, whose crash is then not answered
  (`StopFlag.LateMarkHidesCrash`; `internal/controller/supervisor.go:366-372`).
- A client block that is broken off takes the line that broke it along: a reply line among them is lost to its command
  (`Management.BrokenBlockIgnored`; `internal/controller/mgmt.go:209-230`).
- The crash-loop limit counts crashes, not relaunches. At most `CrashLoopMax` relaunches answer the crashes counted
  between two resets. Counted by when they run, the limit holds from one reset to the next exactly when the
  reset found no other auto-restart waiting or about to launch (`CrashLoop.LimitKeptIffNonePending`); a Restart that
  holds the lock longer than the window makes one wait (`CrashLoop.ResetBehindRestart`;
  `internal/controller/supervisor.go:319-361`).
- The published list is the revoked set exactly when no server certificate has been retired since the last list was
  signed (`Certificates.ListedExactly`; `internal/api/handlers.go:316-356`).
- SOCKS credentials reach the server as they are exactly when each is at most 255 bytes long
  (`SocksHandshake.AuthDecodesIffShort`; `internal/upstream/socks.go:250-257`).
- An empty message goes out exactly when the text is empty, or some round of the splitting loop starts with one byte
  over the limit, a line break, and no other line break behind the first byte
  (`MessageSplitter.EmptyChunkIff`; `internal/telegram/bot.go:82-93`).

## Model

| member | source | states |
|---|---|---|
| UpstreamConfig.NoErrorIffValid | internal/upstream/upstream.go:288-340 | checking entry by entry against what was seen so far accepts exactly the configurations whose entries are well formed, whose ids and tables are pairwise distinct, and whose default and overrides name defined upstreams |
| UpstreamConfig.FirstErrorExact | internal/upstream/upstream.go:288-340 | the error reported is the first check that the first faulty entry fails; with all entries in order an undefined default, then an override to an undefined upstream |
| UpstreamConfig.Validate | internal/upstream/upstream.go:288-340 | the loop over growing sets of seen ids and tables reports the first error in the order the checks are made, and none exactly if there is none |
| UpstreamConfig.FindLoop | internal/upstream/upstream.go:213-222 | the search yields the first entry with the id |
| UpstreamConfig.FindsFirst | internal/upstream/upstream.go:213-222 | nothing before the entry found has the id |
| UpstreamConfig.FindEntry | internal/upstream/upstream.go:213-222 | with distinct ids every entry is the one its own id finds |
| UpstreamConfig.NextTable | internal/upstream/upstream.go:224-237 | the scan yields the lowest table of the band that no upstream uses |
| UpstreamConfig.LowestFree | internal/upstream/upstream.go:231-236 | the result is free, everything below it is used, and there is none exactly when the whole band is used |
| UpstreamConfig.NoFreeTableIffFull | internal/upstream/upstream.go:224-237 | pigeonhole: a valid configuration runs out of tables exactly when it holds 64 upstreams, and never holds more |
| UpstreamConfig.PortsAndPrioritiesInjective | internal/upstream/upstream.go:106-108 | relay ports and rule priorities are the table's offset from 20000, stay in their bands and tell any two upstreams apart |
| UpstreamConfig.AddUpstream | internal/upstream/upstream.go:134-146 | the loop-based add is the specified one, errors included |
| UpstreamConfig.WithAddedExact | internal/upstream/upstream.go:134-146 | an add succeeds exactly when there is room, the entry is well formed and its id is new; it then takes the lowest free table, moves no other, and keeps the configuration valid; a refused one is told its own first fault |
| UpstreamConfig.RemoveUpstream | internal/upstream/upstream.go:148-174 | the two loops drop exactly the upstream and every reference to it |
| UpstreamConfig.WithoutExact | internal/upstream/upstream.go:148-174 | a delete keeps the configuration valid without validating it; a default that named the upstream is cleared and no other takes its place, overrides to it are dropped so that their clients fall back to the default that is left, all others stay, and the upstreams keep their order |
| UpstreamConfig.AssignExact | internal/upstream/upstream.go:187-206 | an assignment succeeds exactly in its two forms and on a defined target, changes what one client resolves to, and names what was wrong otherwise |
| UpstreamConfig.SetDefaultExact | internal/upstream/upstream.go:208-211 | the default can be set exactly to a defined upstream or to none |
| UpstreamConfig.EditTakesEffect | internal/api/upstream.go:201-265 | an edit that can be made is made, each of the four, and any other leaves the configuration alone |
| UpstreamConfig.EditKeepsConfig | internal/api/upstream.go:201-265 | every edit, refused or not, keeps the stored configuration valid and free of an override for the empty name |
| UpstreamConfig.ReachableConfigsAreValid | internal/api/upstream.go:201-265 | after any sequence of edits from the empty configuration it is valid and every client resolves to a defined upstream or to none |
| UpstreamConfig.ResolvesToDefined | internal/upstream/upstream.go:125-132 | in a valid configuration resolution fails to find an upstream only for the empty id |
| Netfilter.TeardownArgs | internal/upstream/upstream.go:345-357 | the loop emits the sweep of all 64 slots in order |
| Netfilter.NftRuleset | internal/upstream/upstream.go:382-415 | the emitted chains are the compiled ruleset: default mark, redirects, masquerades of existing interfaces, tunnel masquerade last |
| Netfilter.LastMatchWins | internal/upstream/upstream.go:382-390 | in the mark chain the last matching rule decides, which is why rules appended per client override the default's |
| Netfilter.RedirectMeansUpstream | internal/upstream/upstream.go:391-400 | with distinct tables a mark is redirected to the relay port of the SOCKS upstream that owns it, and no other mark is redirected |
| Netfilter.MasqueradesMeanUpstreams | internal/upstream/upstream.go:401-407 | the masquerade rules are exactly those of the interface-mode upstreams whose interface exists |
| Netfilter.DropHandleExact | internal/upstream/upstream.go:674-677 | deleting by handle removes that rule and no other, and keeps the chain's handles ascending |
| KillSwitch.OwnTableOnly | internal/upstream/upstream.go:342-343 | in ovcp's band a mark is looked up in its own table and nowhere else |
| KillSwitch.TeardownEffect | internal/upstream/upstream.go:345-357 | the sweep empties exactly the tables whose flush succeeded |
| KillSwitch.TeardownRules | internal/upstream/upstream.go:345-357 | and removes exactly the fwmark rules of the band whose delete succeeded |
| KillSwitch.RebuildEffect | internal/upstream/upstream.go:436-446 | whichever commands fail, an upstream's commands build its own slot and disturb no other's |
| KillSwitch.SlotRoutes | internal/upstream/upstream.go:434-446 | what sweep and rebuild together leave in an upstream's slot, for every pattern of failures |
| KillSwitch.ReroutedCanonical | internal/upstream/upstream.go:345-375 | from a band where every rule points a mark at its own table, sweep and rebuild lead to such a band again, whatever fails |
| KillSwitch.KillSwitchHolds | internal/upstream/upstream.go:359-375 | once fallback and rule are in, marked traffic leaves by its own interface or not at all exactly when the flush or the primary succeeded or no live foreign route was left in the slot |
| KillSwitch.LeftoverRouteLeaks | internal/upstream/upstream.go:345-375 | such a leak: an upstream is added and deleted, another takes its slot, the flush fails from the deletion on and the new primary fails too; the new one's traffic leaves by the deleted one's interface |
| KillSwitch.PrimaryCarries | internal/upstream/upstream.go:359-375 | with all three commands in, marked traffic takes the interface while it exists and is unreachable once it is gone |
| Egress.Router.RunAll | internal/upstream/upstream.go:436-446 | every command is tried, failures change nothing and are reported exactly if one occurred |
| Egress.Router.AddTrackedRule | internal/upstream/upstream.go:533-547 | a rule is added and recorded under its fresh handle, or nothing is recorded |
| Egress.Router.Install | internal/upstream/upstream.go:549-564 | the new rule goes in before the old one goes out, and stays if the removal fails |
| Egress.Router.Uninstall | internal/upstream/upstream.go:566-579 | the entry is forgotten only if its rule was removed |
| Egress.Router.OnEstablished | internal/upstream/upstream.go:581-601 | only an overridden client is tracked |
| Egress.Router.OnDisconnect | internal/upstream/upstream.go:603-613 | removes the session's own rule, keeping the entry when that fails |
| Egress.Router.ReassignSession | internal/upstream/upstream.go:615-633 | replaces, adds or removes the session's rule as the configuration now says |
| Egress.Router.OnExit | internal/upstream/upstream.go:635-648 | every tracked entry is uninstalled once, in whatever order the map yields |
| Egress.Router.ReinstallAll | internal/upstream/upstream.go:463-487 | every tracked entry is re-added or dropped once, in whatever order the map yields; reports an error exactly if some entry failed |
| Egress.Router.ClearBand | internal/upstream/upstream.go:500-507 | the best-effort sweep of routes, rules and the nft table |
| Egress.Router.InstallRoutes | internal/upstream/upstream.go:436-446 | runs the interface-mode upstreams' commands in order, reporting a failure exactly if one occurred |
| Egress.Router.ApplyConfig | internal/upstream/upstream.go:425-461 | an invalid configuration touches nothing; a failed check or load leaves the band rebuilt without per-client rules; otherwise the table is loaded and every session reinstalled |
| EgressReports.ApplyReports | internal/upstream/upstream.go:428-461 | Apply reports success exactly if the configuration is valid, all three commands of every interface-mode upstream succeeded, the relays are in sync, the ruleset was checked and loaded, and every tracked session that is overridden has an IPv4 address and got its rule |
| EgressReports.ApplyLeaves | internal/upstream/upstream.go:428-487 | what Apply leaves in every case: nothing touched by an invalid configuration, the rebuilt band without a table after a failed check or load, and else exactly the sessions tracked that got their rule back |
| EgressReports.ReinstallReports | internal/upstream/upstream.go:469-487 | whichever adds fail, the loop keeps exactly the sessions that got their rule back, and reports an error exactly if an overridden one did not |
| EgressReports.EstablishReports | internal/upstream/upstream.go:533-601 | ESTABLISHED succeeds exactly for a client without an override or one whose rule went in and named its handle; only then is it tracked, and the chain gains that one rule or none |
| EgressReports.UninstallReports | internal/upstream/upstream.go:566-613 | a removal succeeds exactly if there was nothing to remove or nft removed the rule; otherwise entry and rule stay |
| EgressReports.ReassignReports | internal/upstream/upstream.go:549-633 | for an overridden client it succeeds exactly if its rule went in; then the old rule is gone exactly if nft removed it, and a refused one leaves everything as it was; for any other client it is a removal |
| EgressReports.ClearAllKeeps | internal/upstream/upstream.go:635-648 | OnExit keeps exactly the entries whose rule nft did not remove |
| RuleSafety.StepIsSafe | internal/upstream/upstream.go:517-648 | every operation, whichever of its commands fail, keeps tracked handles distinct and each one either dead or naming its own session's rule |
| RuleSafety.RunsAreSafe | internal/upstream/upstream.go:517-648 | so does every run of operations, from any such state |
| RuleSafety.StartIsSafe | internal/upstream/upstream.go:527-531 | a new process is safe over whatever kernel state its predecessor left |
| RuleSafety.ReinstallKeeps | internal/upstream/upstream.go:463-487 | the rebuild makes the tracker safe whatever stale handles it starts with, because it only adds |
| RuleSafety.OtherSessionsUntouched | internal/upstream/upstream.go:517-523 | an operation on one session, a late disconnect of a replaced session included, leaves every other session's entry and live rule in place |
| RuleSafety.ReinstallOnlyAppends | internal/upstream/upstream.go:533-547 | no rule is deleted during the rebuild: the loaded chain stays a prefix |
| TrackerAgreement.AddExact | internal/upstream/upstream.go:540-547 | a successful add keeps chain and tracker in one-to-one agreement and gives the session its upstream's mark |
| TrackerAgreement.UninstallExact | internal/upstream/upstream.go:566-579 | so does a successful removal, which forgets that session alone |
| TrackerAgreement.InstallExact | internal/upstream/upstream.go:549-564 | so does a replacement: one rule per session again, with the new mark |
| TrackerAgreement.InstallKeepsMarks | internal/upstream/upstream.go:549-564 | replacing one session's rule changes no other session's mark |
| TrackerAgreement.ReinstallExact | internal/upstream/upstream.go:463-487 | after the loop exactly the overridden sessions are tracked, each under a fresh handle and its assigned table, and chain and tracker agree |
| TrackerAgreement.ApplyExact | internal/upstream/upstream.go:428-487 | Apply re-establishes that agreement from any tracked table, whatever its handles |
| TrackerAgreement.SessionMark | internal/upstream/upstream.go:650-662 | a tunnel packet from one tracked session's address carries the mark of that session's rule, default rule or not |
| TrackerAgreement.DefaultPacketMark | internal/upstream/upstream.go:388-390 | from an address no session holds it carries the default's table, or 0 without a default |
| TrackerAgreement.ForeignPacketUnmarked | internal/upstream/upstream.go:377-381 | a packet that did not arrive on the tunnel is never marked, whatever its source address |
| TrackerAgreement.OrderDoesNotMatter | internal/upstream/upstream.go:469-487 | with distinct addresses the packet-to-mark function after Apply is the same for every order the map is ranged over in |
| RuleAccounts.AddAccounted | internal/upstream/upstream.go:533-547 | adding a rule keeps the chain accounted for, with whatever orphans there are; adding one for a session that has an entry orphans its rule |
| RuleAccounts.InstallAccounted | internal/upstream/upstream.go:549-564 | replacing a rule keeps the account and orphans nothing |
| RuleAccounts.UninstallAccounted | internal/upstream/upstream.go:566-579 | removing a rule takes that entry alone off the account |
| RuleAccounts.ClearAllAccounted | internal/upstream/upstream.go:635-648 | clearing leaves no entry, and every orphan |
| RuleAccounts.ApplyAccounted | internal/upstream/upstream.go:428-487 | Apply starts a new account: no orphans, an entry for exactly the tracked sessions that are overridden now, each for the table it is assigned now |
| RuleAccounts.DecidedMark | internal/upstream/upstream.go:650-662 | of the entries' and orphans' rules for an address the one with the latest handle decides a tunnel packet's mark |
| RuleAccounts.SomeRuleDecides | internal/upstream/upstream.go:650-662 | every address has such a rule or has none at all |
| RuleAccounts.EntryMark | internal/upstream/upstream.go:650-662 | a packet from the address of one entry and no orphan carries that entry's table, whoever holds the address |
| RuleAccounts.NoEntryMark | internal/upstream/upstream.go:388-390 | from the address of no entry and no orphan it carries the default's mark |
| EgressRuns.StepKeepsInv | internal/upstream/upstream.go:425-648 | every event, in any order, callbacks late, repeated or for sessions long gone included, keeps the chain accounted for, the configurations valid and the band canonical |
| EgressRuns.RunKeepsInv | internal/upstream/upstream.go:425-648 | so does every run |
| EgressRuns.ReachableInv | internal/upstream/upstream.go:425-648 | all of it holds at every point of every run from startup |
| EgressRuns.StartExists | cmd/ovcp/main.go:261-267 | the server can start with every configuration the edits can reach |
| EgressRuns.OneRulePerEntry | internal/upstream/upstream.go:517-531 | at every point of every run every client rule is a tracked entry's or an orphan, every entry has a rule of its own, and no two share a handle |
| EgressRuns.ReusedIdOrphansRule | internal/upstream/upstream.go:581-601 | ESTABLISHED for a session id that has an entry leaves the old rule in the chain with no entry to remove it by |
| EgressRuns.OrphanStays | internal/upstream/upstream.go:603-648 | no operation but Apply removes such a rule |
| EgressRuns.AddressMark | internal/upstream/upstream.go:382-390 | at every point of every run, for every address, with no exception: the latest rule for it decides the mark of a tunnel packet, its session's, another's or an orphan, and the applied default does if there is none |
| EgressRuns.LatestRuleMarks | internal/upstream/upstream.go:549-633 | a rewrite or an ESTABLISHED that adds a rule decides at once for its address, whatever rules there are for it already and whoever holds it |
| EgressRuns.SessionPacketMark | internal/upstream/upstream.go:650-662 | a connected session's packet carries its own entry's table, or the default's mark without one, unless another session's entry or an orphan holds its address |
| EgressRuns.SessionRoutedAsConfigured | internal/upstream/upstream.go:125-132 | at every point of every run that is the upstream the client resolves to if the tracker is up to date with the session, and otherwise exactly if the marks coincide |
| EgressRuns.OtherPackets | internal/upstream/upstream.go:377-390 | at every point of every run packets from an address that neither a session nor a left-over rule holds get the default's mark, and packets from off the tunnel get none |
| EgressRuns.ApplySettles | internal/upstream/upstream.go:463-487 | applying the stored configuration brings a session up to date exactly if it is not overridden or has an entry |
| EgressRuns.TrafficFollowsConfig | internal/upstream/upstream.go:377-415 | end to end, at every point of every run: the first packet of a session the tracker is up to date with goes where its configured upstream sends it, or is dropped, or takes the masqueraded host default when it has none; for an interface-mode upstream if its flush, fallback and rule commands succeeded in the last Apply |
| PacketFates.ApplyGuards | internal/upstream/upstream.go:425-446 | Apply guards every interface-mode upstream whose flush, fallback and rule commands succeeded, with or without its primary route; no other event undoes that |
| PacketFates.MasqueradedIffUp | internal/upstream/upstream.go:401-407 | routed traffic is masqueraded out its interface exactly when that existed at Apply |
| PacketFates.UnmarkedFate | internal/upstream/upstream.go:408-412 | unmarked tunnel traffic takes the host's default route, masqueraded |
| PacketFates.MarkedFate | internal/upstream/upstream.go:382-407 | TCP with a SOCKS upstream's mark goes to that upstream's relay; traffic with a guarded interface upstream's mark leaves by its interface or is dropped |
| EgressTurns.TurnKeepsAgreement | internal/api/upstream.go:190-265 | an edit with Apply, a join, a leave and a restart handled in order keep tracker, connections and configuration in agreement, and an assignment does exactly when it changes nothing or rewrites its client's only session, connected as listed |
| EgressTurns.AgreedExactlyWhenOrderly | internal/api/upstream.go:140-265 | a run of such turns agrees at every point between them exactly when each of its assignments is of that kind |
| EgressTurns.AgreedTraffic | internal/upstream/upstream.go:377-415 | while they agree every session's traffic goes where the configuration says and all other tunnel traffic to the default |
| EgressTurns.PlayedReachable | internal/upstream/upstream.go:425-648 | every run of turns is a run of the server |
| EgressTurns.TwoSessions | internal/upstream/upstream.go:581-601 | under every configuration there is a run with two sessions of one client, in agreement |
| EgressTurns.OtherSessionKeepsOldMark | internal/api/upstream.go:151-169 | setting or clearing a client's override, rewriting another of its sessions or none, leaves a session's packets on the old upstream, and so right exactly when old and new have the same mark; the one exception is a session at the address that the rewritten one is still listed at, which is moved by that one's rule |
| EgressTurns.RewriteMarks | internal/api/upstream.go:157-169 | the rule that an assignment adds marks the listed address with the assigned upstream, whichever session holds it |
| EgressTurns.DepartedTarget | internal/api/upstream.go:157-169 | if the listed session has left, a client without an override that gets its address is routed by its rule, and so right exactly when that upstream has the default's mark |
| EgressTurns.UnreportedSession | internal/controller/mgmt.go:253-265 | a session whose ESTABLISHED is not reported takes the default, right exactly when its upstream has the default's mark |
| EgressTurns.UnreportedDisconnect | internal/controller/mgmt.go:278-290 | a session whose DISCONNECT is not reported goes on marking its address, right for the next holder exactly when the marks coincide |
| EgressTurns.GoneUnreportedReachable | internal/controller/mgmt.go:278-290 | and such runs are runs of the server |
| EgressTurns.LateClear | internal/controller/supervisor.go:301-304 | ClearAll after the next worker's client has connected leaves that client on the default, or on the orphan of its session id's earlier entry for the same address; right exactly when that has its upstream's mark |
| EgressTurns.LateClearReachable | internal/controller/supervisor.go:301-304 | and such runs are runs of the server |
| LineDiff.JoinSplit | internal/ovpnconf/config.go:280-281 | joining the split lines gives the text back |
| LineDiff.LcsIsUpperBound | internal/ovpnconf/config.go:282-294 | no common subsequence is longer than the recurrence says |
| LineDiff.LcsIsAttained | internal/ovpnconf/config.go:282-294 | and some common subsequence is that long |
| LineDiff.FillTable | internal/ovpnconf/config.go:282-294 | the in-place loops leave in every cell the longest-common-subsequence length of the two suffixes |
| LineDiff.WalkTable | internal/ovpnconf/config.go:295-306 | walking the table prints the greedy edit script |
| LineDiff.WalkTurns | internal/ovpnconf/config.go:295-306 | that script turns the one text into the other and keeps as many lines as possible |
| LineDiff.WalkIsShortest | internal/ovpnconf/config.go:295-306 | it prints the sum of the lengths less twice the longest common subsequence, and no script between the same texts prints fewer |
| LineDiff.DeletionsFirst | internal/ovpnconf/config.go:295-306 | of a run of changes the deletions are printed before the insertions |
| LineDiff.SignsTell | internal/ovpnconf/config.go:295-306 | the lines printed with a minus are those deleted, with a plus those inserted, in order, and there are no others |
| LineDiff.PatchExact | internal/ovpnconf/config.go:277-278 | a script applies to its own source and to nothing else, yielding its target |
| LineDiff.Diff | internal/ovpnconf/config.go:279-307 | the whole function prints that script for the two texts without their trailing newlines |
| LineDiff.EmptyIffSameText | internal/api/api.go:410-418 | the diff is empty, and the change not persisted, exactly when the texts agree up to trailing newlines |
| LineDiff.DiffRoundTrip | internal/ovpnconf/config.go:277-307 | patching the old lines gives the new text, patching the new lines with the reversed script gives the old |
| Supervisor.Fields.Reap | internal/controller/supervisor.go:294-300 | the reaper's critical section: what it reads and everything it clears |
| Supervisor.Fields.CountCrash | internal/controller/supervisor.go:331-338 | the breaker's critical section: the streak restarts after a quiet window and counts otherwise |
| Supervisor.StepSafe | internal/controller/supervisor.go:185-361 | every critical section and event keeps the safety invariant, in any interleaving |
| Supervisor.AtMostOneChild | internal/controller/supervisor.go:234-244 | in every interleaving at most one child is not yet reaped |
| Supervisor.OnExitOnce | internal/controller/supervisor.go:301-304 | OnExit has run exactly once for a child whose supervision is past that point and not at all for any other |
| Supervisor.StopMeansStopped | internal/controller/supervisor.go:196-204 | once Stop has returned no child runs, and none is launched by anything, pending auto-restarts included, until Start or Restart takes the lock |
| StopFlag.StopIsNoCrash | internal/controller/supervisor.go:294-314 | in every interleaving no autoRestart is started and no crash counted for a child that a stop had marked before it was reaped |
| StopFlag.CrashRestartsOnce | internal/controller/supervisor.go:294-338 | in every interleaving exactly one autoRestart is started for a child reaped while wanted with no stop marked since the reaping before, once its goroutine is over, and none for any other; crashes are counted for those children alone |
| StopFlag.LateMarkHidesCrash | internal/controller/supervisor.go:366-372 | a reachable run in which a stop marks a child already reaped, and the next child's crash is not answered although it was wanted and nobody had marked it |
| Supervisor.RelaunchesPerEpochBounded | internal/controller/supervisor.go:319-361 | in every interleaving at most CrashLoopMax relaunches answer the crashes counted between two resets of the streak |
| Supervisor.RelaunchesSinceResetBounded | internal/controller/supervisor.go:319-361 | counted by when they run: since the last reset at most CrashLoopMax, plus one per auto-restart that was pending at it |
| CrashLoop.LimitKeptIffNonePending | internal/controller/supervisor.go:319-361 | after a reset of the streak, and until the next, no continuation relaunches more than CrashLoopMax times exactly when no auto-restart but the counting one waits or is about to launch |
| CrashLoop.NonePendingKeeps | internal/controller/supervisor.go:331-361 | with none pending every continuation keeps the limit |
| CrashLoop.PendingExceeds | internal/controller/supervisor.go:331-361 | from the state right after a reset with one pending some continuation relaunches exactly once too often before the next reset |
| CrashLoop.ResetBehindRestart | internal/controller/supervisor.go:207-218 | a reachable reset that finds one: it waits for the lock that a slow Restart holds |
| CrashLoop.EveryLimitCanBeExceeded | internal/controller/supervisor.go:331-361 | so for every window and limit some run has one relaunch more than the limit since its last reset |
| Lines.Reader.ReadString | internal/controller/mgmt.go:177-188 | yields the text up to and with the next newline and leaves the rest, or nothing when no line is complete |
| Lines.SplitJoin | internal/controller/mgmt.go:397-398 | fields without the separator survive joining and splitting |
| Management.Client.ReadClientEnv | internal/controller/mgmt.go:209-230 | the loop reads one environment block or fails at the first line that is not part of one |
| Management.Client.HandleConnect | internal/controller/mgmt.go:232-248 | approves exactly when header and environment were well formed and a connection is held |
| Management.Client.HandleEstablished | internal/controller/mgmt.go:250-266 | calls back with the ids of the block just read, and only then |
| Management.Client.HandleDisconnect | internal/controller/mgmt.go:276-291 | likewise for a disconnect |
| Management.Client.ReadLoop | internal/controller/mgmt.go:177-207 | its effects are those of the stream, in order, and it drops the connection at the end |
| Management.ApprovalNamesClient | internal/controller/mgmt.go:244-244 | the approval is one line of three words: client-auth-nt, the client's id, its key id |
| Management.BrokenBlockIgnored | internal/controller/mgmt.go:209-291 | a client block broken off by a line that is not part of it, or by the end of the stream, has no effect, and that line is gone with it |
| Management.KeylessConnectIgnored | internal/controller/mgmt.go:236-239 | a CONNECT or REAUTH without both ids does nothing and leaves its block unread |
| Management.EnvReadsBack | internal/controller/mgmt.go:209-230 | a rendered environment reads back as its map, the later of two values winning, and consumes exactly itself |
| Management.BlockDispatches | internal/controller/mgmt.go:177-207 | each well-formed block has its own effects and no other, and consumes exactly itself |
| Management.DemuxIsExact | internal/controller/mgmt.go:174-301 | for any interleaving of replies, notices and client blocks, with either line ending and an unfinished line at the end: replies, approvals and callbacks are precisely the blocks' own, in stream order |
| Management.CommandSeesOnlyReplies | internal/controller/mgmt.go:199-206 | the waiting command receives the reply lines in order and nothing else |
| StatusFile.DecimalRoundTrip | internal/controller/mgmt.go:408-409 | every 64-bit counter survives printing and parsing |
| StatusFile.TimeRoundTrip | internal/controller/mgmt.go:410-412 | so does every signed 64-bit time |
| StatusFile.ParseUintExact | internal/controller/mgmt.go:408-409 | on any text a counter is its value if it is all digits and fits, the largest number if the digits it starts with do not fit, and 0 otherwise |
| StatusFile.ParseIntExact | internal/controller/mgmt.go:410-412 | on any text a time is the value of an optional sign and digits if it is in range, and absent otherwise |
| StatusFile.ParseStatusFile | internal/controller/mgmt.go:383-420 | the loop returns the parsed list, or an error and never a part of it |
| StatusFile.SucceedsIffEnd | internal/controller/mgmt.go:383-420 | parsing succeeds exactly when some complete line is END, and the result depends only on the lines before the first one |
| StatusFile.RenderedParsesBack | internal/controller/mgmt.go:383-420 | a rendered document, whatever follows it, parses back to its sessions with all their counters, whether a row ends after its twelfth column, with the cipher or later; shorter rows are skipped |
| StatusFile.TornReadFails | internal/controller/mgmt.go:383-420 | a rendered document cut short at any byte is an error |
| StatusFile.Mgmt.Kill | internal/controller/mgmt.go:422-448 | sends client-kill to exactly the client's sessions in order and returns their number, stopping at the first refusal; a bad verb or an unreadable status sends nothing |
| StatusFile.KillNamesSession | internal/controller/mgmt.go:440-441 | the command is client-kill, the session's id and the verb |
| StatusFile.OfInOrder | internal/controller/mgmt.go:436-446 | the sessions addressed are taken one by one, in the order listed |
| StatusFile.OfExact | internal/controller/mgmt.go:436-446 | the sessions addressed are exactly those of the client, each once |
| Certificates.Authority.RequireActiveCert | internal/store/store.go:185-195 | fails exactly when no active row matches |
| Certificates.Authority.AddCert | internal/store/store.go:220-226 | the primary key and the two unique indexes decide the insert; a refused one changes nothing |
| Certificates.Authority.ReplaceCert | internal/store/store.go:244-257 | retires and inserts in one transaction: a refused insert rolls the retirement back |
| Certificates.Authority.RevokedCerts | internal/store/store.go:296-312 | returns every revoked row and nothing else |
| Certificates.Authority.RegenCRL | internal/api/handlers.go:271-281 | publishes the whole revoked set with its times, or leaves the old list |
| Certificates.Authority.Issue | internal/api/handlers.go:180-203 | issue and renewal with every error path in the order of the checks |
| Certificates.Authority.Revoke | internal/api/handlers.go:301-314 | the passphrase is checked before the row changes |
| Certificates.Authority.Renew | internal/api/handlers.go:340-356 | a server renewal with every error path |
| Certificates.Authority.SetDNS | internal/store/store.go:229-242 | changes the one flag of an active client certificate and reports whether it did |
| Certificates.FirstIssueExact | internal/api/handlers.go:180-203 | a first issue succeeds exactly for an acceptable request, a new serial and a client without an active certificate, and adds that client's one active certificate with its fields and nothing else; a refused one names the first check that failed and leaves no trace |
| Certificates.RenewalExact | internal/api/handlers.go:180-203 | a client renewal goes through exactly for a client with an active certificate, an acceptable request and a new serial: the active one is revoked now, the new one added, no other row changed and the revoked set published; if only the list cannot be written the rows have changed all the same |
| Certificates.RevokeExact | internal/api/handlers.go:301-314 | a revocation goes through exactly for an active client certificate and the right passphrase, and revokes that row alone |
| Certificates.ServerExact | internal/api/handlers.go:316-356 | an init or renewal of the server succeeds exactly for an acceptable request whose files were written under a new serial, and for a renewal with an active certificate and a name; it revokes the active server certificate if there is one, adds the new one as the only active one, and changes no other row and not the list |
| Certificates.SetDNSExact | internal/store/store.go:229-242 | the flag of an active client certificate becomes what was asked for, and nothing else changes |
| Certificates.StepConsistent | internal/store/schema.sql:14-16 | whatever fails, every operation keeps at most one active certificate per client and for the server, a published list of revoked certificates only, and revocations permanent with their times |
| Certificates.StepCoversClients | internal/api/handlers.go:271-356 | no operation ends with a revoked client missing from the list |
| Certificates.RunConsistent | internal/store/schema.sql:14-16 | the same over every run |
| Certificates.RunCoversClients | internal/api/handlers.go:271-356 | the same over every run |
| Certificates.OnlyServersCanBeMissing | internal/api/handlers.go:180-356 | in every run from an empty store the list lies between the revoked clients and the revoked certificates |
| Certificates.RevokePublishes | internal/api/handlers.go:301-314 | after a successful revocation the list is the revoked set, that certificate on it, and the client has no active one left |
| Certificates.RenewalPublishes | internal/api/handlers.go:180-203 | after a successful client renewal the list is the revoked set, the outgoing certificate on it, and the new one is the client's only active one |
| Certificates.ServerRenewalDefersItsRevocation | internal/api/handlers.go:340-356 | a server renewal retires the outgoing certificate without listing it; the next signed list does |
| Certificates.StepLists | internal/api/handlers.go:180-356 | after an operation whose lists reach the disk the published list is the revoked set exactly if the operation signed it, or retired no server certificate and found it so |
| Certificates.ListedExactly | internal/api/handlers.go:180-356 | in every run from an empty store the published list is the revoked set exactly when no server certificate, by renewal or by another init, has been retired since the last list was signed |
| Certificates.DuplicateIssueRefused | internal/store/schema.sql:15-15 | a second certificate for a client with an active one is refused without a trace |
| LoginLimiter.Limiter.Allow | internal/auth/totp.go:83-95 | the answer, and the expired entry dropped on the way |
| LoginLimiter.Limiter.Fail | internal/auth/totp.go:97-114 | sweeps every expired entry, then counts the failure in the running window or opens a new one |
| LoginLimiter.SweepingIsInvisible | internal/auth/totp.go:83-114 | under a clock that does not go backwards every answer is that of a limiter that never deletes |
| LoginLimiter.NewLimiterAnswers | internal/auth/totp.go:79-114 | so every new limiter answers every such run |
| LoginLimiter.ResetUnlocks | internal/auth/totp.go:83-120 | a key that has not failed or was reset is let in, and a reset changes no other key |
| LoginLimiter.FailLeavesOnlyRunning | internal/auth/totp.go:97-114 | after a failure the map holds only entries of running windows |
| LoginLimiter.WindowCounts | internal/auth/totp.go:97-114 | inside a window a key's entry counts every failure and keeps its start, whatever happens to other keys |
| LoginLimiter.LockedExactly | internal/auth/totp.go:66-95 | without a reset a key is refused exactly when max failures fell in its window and that window still runs |
| MessageSplitter.CutAtRuneStart | internal/telegram/bot.go:86-87 | cutting valid UTF-8 where a character starts leaves two valid texts |
| MessageSplitter.RuneStartNearby | internal/telegram/bot.go:86-87 | a character starts at most three bytes back, so the inner loop ends in range |
| MessageSplitter.CutExact | internal/telegram/bot.go:84-88 | the cut is at the last line break within the limit that leaves a chunk before it, and without one at the last character start within the limit |
| MessageSplitter.Bot.FindCut | internal/telegram/bot.go:84-88 | the search finds the last usable line break within the limit, else the last character start |
| MessageSplitter.Bot.SendMessage | internal/telegram/bot.go:80-93 | sends the pieces in order, the markup with the last one alone |
| MessageSplitter.PiecesRejoin | internal/telegram/bot.go:83-91 | the chunks rejoin to the text with one newline restored at each cut that dropped one and nothing elsewhere |
| MessageSplitter.ChunksFit | internal/telegram/bot.go:76-91 | every chunk is valid UTF-8 within the limit in bytes and so in UTF-16 units |
| MessageSplitter.CutsOnLinesOrInLongOnes | internal/telegram/bot.go:84-88 | a chunk but the last ends at a line break, or holds none past its first byte and fills the limit to within three bytes |
| MessageSplitter.NothingLeftIff | internal/telegram/bot.go:84-90 | a round leaves nothing over exactly for a text one byte over the limit that ends in a line break and has no other behind its first byte |
| MessageSplitter.EmptyChunkIff | internal/telegram/bot.go:83-92 | an empty chunk goes out exactly when the text is empty or some round of the loop starts with such a text |
| MessageSplitter.NoEmptyChunk | internal/telegram/bot.go:83-92 | so a non-empty text that does not end in a line break sends none |
| MessageSplitter.EmptyLastChunk | internal/telegram/bot.go:83-92 | and a line of exactly the limit with its line break sends one, last |
| SessionSampler.Sampler.Tick | internal/api/stats.go:101-148 | a skipped tick changes nothing; any other records one row per vanished session, in whatever order the map yields, and holds the live ones |
| SessionSampler.LiveExact | internal/api/stats.go:129-132 | of the sessions listed with one name and connect time a tick holds the last |
| SessionSampler.EachRunEndsOnce | internal/api/stats.go:94-148 | over any ticks a session's rows are, in order, one per maximal run of its presence that ended, with its name, last seen address and counters, connect time and the time of the tick that missed it |
| SessionSampler.HeldIsLastSeen | internal/api/stats.go:101-148 | what is held is what the last unskipped tick saw |
| SessionSampler.EverySessionAccounted | internal/api/stats.go:94-148 | conservation: appearances of a session equal its rows plus one if it is still held |
| SocksHandshake.Stream.DoAuth | internal/upstream/socks.go:250-268 | the bytes sent, the bytes consumed and the outcome of the authentication, every error path included |
| SocksHandshake.Stream.DoConnect | internal/upstream/socks.go:270-306 | likewise for the CONNECT, for all three address types |
| SocksHandshake.Stream.DoHandshake | internal/upstream/socks.go:223-248 | likewise for the whole handshake |
| SocksHandshake.GreetingDecodes | internal/upstream/socks.go:223-230 | the greeting decodes to the one offered method (section 3 of RFC 1928) |
| SocksHandshake.AuthDecodesIffShort | internal/upstream/socks.go:250-257 | the credentials decode to themselves exactly when each is at most 255 bytes (section 2 of RFC 1929) |
| SocksHandshake.ConnectDecodes | internal/upstream/socks.go:270-280 | the request decodes to the destination address and port (section 4 of RFC 1928) |
| SocksHandshake.OutcomeExact | internal/upstream/socks.go:223-306 | whatever the server sends or stops sending, while writes succeed, the outcome names the first answer that was not as it had to be, and exactly the requests got to have been sent |
| SocksHandshake.HandshakeLeavesPayload | internal/upstream/socks.go:223-306 | over any well-formed replies the handshake succeeds, has sent its requests, and leaves the stream at the first payload byte (section 6 of RFC 1928) |
| SocksHandshake.ConnectedMeansReplies | internal/upstream/socks.go:223-306 | conversely a handshake that succeeded consumed such a set of replies and nothing more |
| SocksHandshake.ServerLearnsRequest | internal/upstream/socks.go:223-280 | a server that reads what was sent learns the method, the user's name and password, and the address, an IPv4-mapped one in four bytes, and port |
| RelaySync.RelayTable.Want | internal/upstream/socks.go:47-52 | the loop collects the relay each port should have |
| RelaySync.WantedIsEverySOCKS | internal/upstream/socks.go:47-52 | with distinct tables that is every SOCKS upstream, each on its own port |
| RelaySync.RelayTable.StopStale | internal/upstream/socks.go:53-58 | exactly the relays that are gone or reconfigured are closed and removed |
| RelaySync.RelayTable.StartMissing | internal/upstream/socks.go:59-89 | missing relays are started where they can be, live ones are left alone, and an error is reported exactly if one is still missing |
| RelaySync.RelayTable.Sync | internal/upstream/socks.go:42-90 | the live relays, closed listeners and reported error after one sync, in whatever order the maps are ranged over |
| RelaySync.SyncReachesWanted | internal/upstream/socks.go:42-90 | without an error the live relays are the wanted ones, unchanged ones keep their open listener, and exactly the others' were closed |
| RelaySync.SyncAgainIsNoOp | internal/upstream/socks.go:42-45 | syncing again with the same configuration touches nothing |
| RelaySync.FailedSyncIsPartial | internal/upstream/socks.go:64-88 | whatever fails no wrong relay is left; a wanted one runs exactly if it already did or its URL parses and its port can be listened on, and an error is reported exactly if one is missing |

## Left out

- The text of the nft ruleset and of the `ip` argument lists: rules and commands are datatypes; quoting and nft's own parsing are not modelled.
- Running `ip`, `nft` and the workers: their outcomes are parameters. `nft -f` is taken to be atomic and `nft add rule` to fail only as a whole.
- Egress.Router.ApplyConfig: the relay sync inside Apply is one outcome; `RelaySync` proves it on its own. `Teardown` (`internal/upstream/upstream.go:509-515`) is the band sweep plus a sync of the empty configuration and has no statement of its own.
- SOCKS-mode traffic other than TCP: the code emits neither a redirect nor a rule for it, so `EgressRuns.TrafficFollowsConfig` says nothing about it.
- Connection tracking, and packets in the middle of one Apply, between clearing the band and reinstalling the last session.
- EgressRuns.StepKeepsInv: assumes that nft commands succeed and that OpenVPN's pool gives an address to one session at a time; `RuleSafety` covers runs in which nft commands fail. The callbacks, rewrites and Apply calls load whatever configuration they find, so concurrent requests are in.
- EgressRuns.SessionPacketMark: names a session's own mark only while no left-over rule holds its address; `EgressRuns.AddressMark` covers every address.
- Why a callback comes late or never (management-client-auth off until a restart, the management connection down, an environment block cut short): it is left to the run.
- Supervisor and CrashLoop: the state machine is on values; the class `Fields` holds the fields and one method per critical section. It is untimed: an auto-restart may wait any time, or none, for its delay and the lock, and `CrashLoop.ResetBehindRestart` spends that time with the lock held by a Restart. PreStart, Reconnect, the log pipe, SIGTERM, SIGKILL and their timeouts, process start-up errors other than a failed launch, the default tuning values and all liveness are left out.
- CrashLoop.LimitKeptIffNonePending: has no `CrashRestartDelay`, so the continuations that exceed the limit are untimed: where the delay is longer than the window every counted crash resets the streak, and a timed run may not have them. The half by `CrashLoop.NonePendingKeeps` holds for every timing.
- Management.Client.ReadLoop: the dropping of reply lines after a timeout (`internal/controller/mgmt.go:202-205`) and an old reader that drops a newer connection (`internal/controller/mgmt.go:186`) are not modelled; a consumer is always waiting.
- StatusFile.Mgmt.Kill: does not model the retries of `exec`, its reply reader, or panics in callbacks (`internal/controller/mgmt.go:267-372`).
- StatusFile.ParseStatusFile: strconv's values are modelled for base 10 and 64 bits without underscores, and the bytes of a line as characters.
- Certificates: PEM, keys, signatures and the conversion between hexadecimal serials and numbers; the passphrase check, file writes, the new serial and the clock are parameters; SQLite errors other than the constraints; two processes on one database; the audit log and the restart of sessions after a revocation.
- SessionSampler.Sampler.Tick: takes writing a session row to succeed; samples, pruning, panics inside a tick and the wall clock of the sampler (`internal/api/stats.go:101-165`) are not modelled.
- LoginLimiter: times are unbounded integers, so the saturation of Go's durations is not modelled; nor is the lock around the map.
- MessageSplitter.Bot.SendMessage: requires valid UTF-8, which every text that ovcp composes is; the HTTP call is one recorded message.
- SocksHandshake: deadlines and dialling; a write either succeeds whole or fails whole. A destination port is below 65536, as a TCP address has it.
- url.Parse, net.ParseIP and the existence of an interface are functions of a `Host` parameter that does not change during a run.
- The relays' data path and loopback guard, original-destination lookup, DNS hosts rendering, rates, log rotation, backups, the command line and the web interface.
