# sing-box: DNS rule evaluation, response cache and daemon, modelled in Dafny

This project models the parts of sing-box in which several things happen at once, and proves what
they keep over every run.

- **DNS rule evaluation** (`dns/router.go`). A walk over a rule list that launches queries, passes
  `race` rules while their answers are pending, starts `speculative` queries early, suspends and is
  resumed by callbacks. It is compared with two interpreters that know nothing of futures: `Blocking`,
  in which every `evaluate` waits, and `Allowed`, a bound on the outcomes that server speed may choose
  between. `ExactOutcomes` gives the outcomes exactly, with a run for each; `Deciders` says of the rule list
  alone who can decide, and `WalkCourse` keeps every walk on that course.
  `RaceOrder` says which race rule cannot win; `SplitSweep` and `SplitRule` say what an answer
  does that arrives in the middle of a resumption or of a rule.  `OptionOverlay` and `SentQueries` say which
  servers an exchange asks, with which options, and what each kind of rule answers.
  `DnsRules` has the rules and the interpreters; `RuleWalk` the step functions; `WalkInvariant` and
  `WalkSteps` the invariant and its preservation; `WalkMachine`, `WalkRuns` and `WalkTheorems` the
  exchange as a state machine and the theorems; `RuleWalker` the same walk as a class updated in place.
- **Rule options** (`RuleOptions`, `RuleValidation`, `LegacyMode`). What validation accepts is what the
  walk relies on, and stays so over every run of rule-set metadata updates.
- **DNS client** (`SingleFlight`, `InFlight`, `ExchangeExits`, `OverlappingRelease`, `ResponseCache`, `CacheTheorems`, `ClientSubnet`, `SubnetMessages`).
  The per-key lock under concurrent exchanges, response lifetimes in memory and on disk, and cache keys
  that must agree with the message sent.
- **Server start** (`TransportStart`). Start in dependency order, and the diagnosis when that is stuck.
- **Daemon** (`ServiceLifecycle`, `LifecycleTheorems`, `EventStream`, `StreamTheorems`, `ChunkReader`). The two-lock service
  lifecycle, the connection stream and its replaying client, and the chunk reader.
- **Two small pieces** (`SavedBinary`, `CloseReason`). A binary codec and a compare-and-swap register.

`Optional`, `Bytes` and `Sets` hold what several modules share.

## Where the code does not do what one would expect

Each of these has a lemma with a concrete input or run, and one with the exact condition.

- The connection stream. A connection that closes between the reading of the active list and of the
  closed list is reported open and then closed, while the server goes on following it
  (`StreamTheorems.ListedTwiceIsOutOfStep`). Client and server agree in every run if and only if the two
  lists share no connection (`StreamTheorems.AlwaysInStepIffListsDisjoint`). The next tick repairs it.
- Totals of the stream. A counter that falls is not told to the client
  (`StreamTheorems.FallenCounterIsMissed`). The client's total is right if and only if the changes
  skipped that way cancel out (`StreamTheorems.TotalsAreConserved`).
- The cache key. An IPv4-mapped IPv6 subnet is put in the key as it is, and unmapped when it is read
  from a message (`ClientSubnet.MappedSubnetIsLost`). Key and message agree if and only if the subnet is
  not mapped (`ClientSubnet.KeyMatchesWireIff`).
- OPT records. An OPT record that is followed by a record of another type is forgotten, and a second one
  is added (`ClientSubnet.SecondOptRecord`, `ClientSubnet.OptRecordAddedIff`).
- Memory and persistent cache. Writing an entry to disk cuts its expiry to whole seconds
  (`CacheTheorems.FlushedStoresDiffer`). The two stores agree at all times if and only if the entry
  expires on a whole second (`CacheTheorems.FlushIsExactIffWholeSecond`).
- Exchanges in flight. Those that waited for the lock of a key go on without it, so a key can have two in
  flight (`InFlight.TwoInFlight`), but only if one of them waited
  (`InFlight.OneInFlightUnlessWaited`).
- Calls back that overlap. Two of them can close one channel twice (`OverlappingRelease.OverlapClosesTwice`),
  if and only if one makes its first step when the other has made between one and three of its four
  (`OverlappingRelease.ClosedOnceIffNotOverlapping`).
- Empty answers. A record of an empty answer can be served past the end of its own TTL, because only the
  SOA record bounds the lifetime. It never is if and only if that bound is at most every positive TTL
  (`CacheTheorems.EndsInTimeIff`).
- Settle and sweep. An answer that arrives between them can be missed (`SplitSweep.SplitLosesTheAnswer`).
  Some matching tells the two orders apart if and only if a ready armed rule that would decide on a match
  binds by tag a query that was answered with a response and is not settled (`SplitSweep.SplitSweepIff`).
- Settling and the check of a rule's bindings. An answer that arrives between them can be missed even if no
  rule races (`SplitRule.LateAnswerIsMissed`). Some matching tells the difference if and only if nothing
  the rule binds is pending any more, it binds by tag such an unsettled answer, and it would do something
  on a match (`SplitRule.SplitRuleIff`).
- Rule-set updates. Two that are checked before either is applied can leave a list that does not fit the
  mode (`LegacyMode.RacingUpdatesMisfit`). If nothing harmful is pending when the router starts, a legacy
  router cannot be broken by a race (`LegacyMode.LegacyRacingFits`), and any other is broken exactly while
  no node of its list disables legacy mode and some node needs it (`LegacyMode.NonLegacyRacingFitsIff`).
  An update that was accepted before the start and is applied after it can break a legacy router too
  (`LegacyMode.PendingAtStartMisfits`), and whatever is pending and harmful can
  (`LegacyMode.HarmfulPendingMisfits`). What the walk relies on survives (`LegacyMode.RacingStaysSound`).

## What is taken as given

- Settling futures and sweeping armed rules in the resume loop is one step, and so is one rule of the
  walk. Both are needed: without the first a race rule can be dropped although its answer is there
  (`SplitSweep`), and without the second a rule that does not race can miss an answer that has arrived, so
  that `WalkTheorems.ExchangeIsBlocking` fails although nothing races (`SplitRule`).
- Accepting a rule-set update and applying it is one step in `RouterNext`; `RacingNext` takes them apart.
- `Match` reads only the responses a rule binds. The answer to a query is a function of the rule that
  launched it, the server and the options.
- A callback of a query makes its answer visible and offers its wake token once, in that order.
- A transport calls back any number of times; its calls back to one exchange do not overlap.
- A transfer of a file fails when one of its reads does.
- Message packing and unpacking give the message back. A `Copy` shares nothing. Lists are values: adding a
  record to one message cannot be seen through another that was made from the same one.
- Times do not go backwards where a run is said to be in time order. Closing times are not the zero time.
- Connection counters are read once per step; the code reads them twice when it reports a connection.

## Model

| member | source | states |
|---|---|---|
| `DnsRules.ApplyRouteOptions` | dns/router.go:371-395 | overlaying rule options never touches the strategy, never turns caching back on, and never leaves a subnet set and removed at once |
| `OptionOverlay.LastWriterWins` | dns/router.go:371-395 | after any list of actions the TTL, the timeout and the subnet with its removal are those of the last action that set them, or else of the query; caching is off exactly if the query or some action asked; the strategy is the query's |
| `DnsRules.NoRaceMeansBlocking` | dns/router.go:580-768 | without `race` rules the set of allowed outcomes is exactly the blocking one |
| `DnsRules.LosingRacesMeanBlocking` | docs/configuration/dns/rule_action.md:36-58 | if the race rules that are met miss on the answers of this query, the blocking outcome is the only allowed one, whatever the `speculative` flags are |
| `DnsRules.NoRaceMisses` | docs/configuration/dns/rule_action.md:36-58 | a list without race rules is a case of it |
| `DnsRules.WinnersStayAllowed` | dns/router.go:812-900 | the bound on outcomes is never empty, and keeps every race rule that decides |
| `DnsRules.JudgeFrame` | dns/router.go:648-715 | what a rule decides depends on the options, the anonymous answer and the tags it binds, and on nothing else of the scope |
| `DnsRules.SpeculationIsNotJudged` | dns/router.go:716-738 | what a rule decides and leaves does not depend on `speculative` flags |
| `DnsRules.BlockingIgnoresSpeculation` | dns/router.go:716-738 | two lists that differ in `speculative` flags only have the same blocking outcome, and miss the same races |
| `RuleWalk.SettleKeeps` | dns/router.go:533-554 | settling publishes responses and marks futures, and changes nothing else of the walk |
| `WalkInvariant.InitialOk` | dns/router.go:438-452 | a walk that has not begun satisfies the walk invariant |
| `WalkInvariant.SettleKeepsOk` | dns/router.go:533-554 | settling publishes every arrived answer and keeps the invariant, the scope and every verdict |
| `WalkInvariant.ArrivalKeepsOk` | dns/router.go:508-531 | an answer may arrive at any moment without breaking the invariant |
| `WalkInvariant.PublishedTagAgrees` | dns/router.go:533-554 | for a bound tag whose query was answered and settled, the published response is that answer |
| `WalkInvariant.ObserveIsSeenBy` | dns/router.go:648-654 | a rule whose bindings are settled sees exactly what a blocking evaluation would have shown it |
| `WalkInvariant.JudgeArmedIsJudge` | dns/router.go:812-900 | judging an armed rule in a sweep gives the verdict of the reference interpreter in the scope it was armed in |
| `WalkSteps.SweepMembers` | dns/router.go:812-900 | a sweep keeps, drops and commits only armed rules; a dropped one was ready and did not decide; the winner was ready and decided |
| `WalkSteps.SweepAscends` | dns/router.go:812-900 | armed rules stay in rule order through a sweep |
| `WalkSteps.SweepPriority` | dns/router.go:812-900 | a sweep commits the first ready rule, in rule order, that decides: every ready rule before it was judged and missed, every other rule is kept |
| `WalkSteps.SweepLeavesWaiting` | dns/router.go:812-900 | a sweep without winner leaves no ready rule armed |
| `WalkSteps.SweepKeepsWinners` | dns/router.go:812-900 | dropping losers changes no possible winner, and the winner is one of them |
| `WalkSteps.EvaluateStepOk` | dns/router.go:662-684 | an `evaluate` rule keeps the invariant and the set of outcomes still open |
| `WalkSteps.RespondStepOk` | dns/router.go:685-715 | a `respond` rule keeps the invariant and ends with an open outcome, or waits |
| `WalkSteps.RouteStepOk` | dns/router.go:716-738 | a `route` rule, speculative or not, keeps the invariant and ends with an open outcome, or waits |
| `WalkSteps.RejectStepOk` | dns/router.go:739-761 | a `reject` or `predefined` rule keeps the invariant and ends with an open outcome, or waits for armed rules |
| `WalkSteps.ArmStepOk` | dns/router.go:588-630 | arming a race rule, with the sweep that follows at once when it is ready, keeps the invariant and the open outcomes |
| `WalkSteps.RuleStepOk` | dns/router.go:580-768 | one iteration of the rule loop keeps the invariant, and the outcomes still open after it are those open before it |
| `WalkMachine.RuleStepGrows` | dns/router.go:508-531 | one iteration launches at most one query, under a tag of the current rule, and forgets none |
| `WalkMachine.GrowthKeepsLost` | dns/router.go:508-531 | a race rule that lost stays lost however the walk grows |
| `WalkRuns.SweepMoveOk` | dns/router.go:780-793 | settle and sweep in the resume loop keep the invariant, or commit an outcome that was open |
| `WalkRuns.NextSafe` | dns/router.go:780-810 | every step of the exchange, of the walker or of a callback, keeps it safe |
| `WalkRuns.NextWakeable` | dns/router.go:508-531 | every step keeps: while the loop is blocked, a token is there or a callback has still to offer one |
| `WalkTheorems.RunInvariant` | dns/router.go:580-810 | the whole invariant holds, and the rank bounds the length, in every run |
| `WalkTheorems.NextRank` | dns/router.go:780-810 | every step of a run uses up rank |
| `WalkTheorems.ExchangeIsAllowed` | dns/router.go:580-810 | an exchange that is not cancelled ends with an outcome within the bound, for every order of answers |
| `WalkTheorems.LostRacesLeaveBlocking` | dns/router.go:580-810 | if the race rules that are met miss on the answers of this query, the suspendable walk returns exactly what the blocking interpreter returns, for every order of answers |
| `WalkTheorems.ExchangeIsBlocking` | dns/router.go:580-810 | without race rules the suspendable walk returns exactly what the blocking interpreter returns, for every order of answers |
| `WalkTheorems.SpeculationHasNoEffect` | dns/router.go:716-738 | as long as the race rules that are met miss, two lists that differ in `speculative` flags only give the same outcome in any two runs |
| `WalkTheorems.CommitGate` | dns/router.go:671-768 | a rule without `race`, or the default server, decides only after every earlier race rule had all its bound answers, was judged and missed |
| `WalkTheorems.EveryEndHasADecider` | dns/router.go:764-810 | every finished exchange has a recorded decider, so the gate covers all of them |
| `WalkTheorems.LostRulesSawEverything` | dns/router.go:812-900 | a race rule that lost had every answer it bound |
| `WalkTheorems.AlwaysProgress` | dns/router.go:780-810 | no lost wakeup and no deadlock: an unfinished exchange is never blocked without a wake channel, and can move once every launched callback has finished |
| `WalkTheorems.RunsAreBounded` | dns/router.go:780-810 | walk re-entries, wake-ups and whole runs are linear in the number of rules |
| `WalkTheorems.PendingIsFinal` | dns/router.go:780-793 | when a pending exchange is returned no armed rule is left, and its own answer is all that can follow |
| `WalkTheorems.SpeculationIsUnique` | dns/router.go:716-738 | in every reachable configuration at most one speculative terminal query exists |
| `WalkTheorems.SpeculationIsThePlainQuery` | dns/router.go:716-738 | while nothing is decided it belongs to the rule the walk stands at, with the server and options the plain route would use there |
| `WalkTheorems.SpeculationIsConsumed` | dns/router.go:902-926 | once every armed rule has missed the speculative query is consumed at its own rule, and its answer is the outcome of the plain route |
| `WalkTheorems.PublishedIsTheOnlyAnswer` | dns/router.go:533-554 | a published response is the arrived answer of the only query with that tag |
| `WalkTheorems.RespondReadsArrivedAnswers` | dns/router.go:685-715 | `respond` never reads a query that has not been answered |
| `WalkTheorems.SweepMissesUnsettledAnswers` | dns/router.go:783-784 | the case of `respond`: an answer that arrives between settle and sweep makes a ready race rule report a missing response |
| `Deciders.RuleDecidesAlone` | docs/configuration/dns/rule_action.md:56-58 | if a rule without `race`, or the default server, can decide an exchange by the list, then nobody else can: speed chooses among race rules only |
| `WalkCourse.SweepDecides` | dns/router.go:812-900 | a race rule wins a sweep only if the walk reaches it and no earlier race rule decides on the answers it binds and those the walk had to wait for |
| `WalkCourse.RuleIsGuided` | dns/router.go:580-768 | in every run a walk without a decision has the scope, the sources and the waits that the list sets for its rule; who decides can decide by the list, with the outcome set there |
| `ExactOutcomes.RunKept` | dns/router.go:580-810 | this holds over every run of the exchange, whatever order answers arrive in |
| `ExactOutcomes.Complete` | dns/router.go:770-810 | every run that is not cancelled can be brought to an end, and a decision once taken stays |
| `ExactOutcomes.ReachFrugally` | dns/router.go:580-768 | a rule that can be reached is reached by a run in which only the answers it needs have arrived |
| `ExactOutcomes.EndIsListed` | dns/router.go:580-810 | whoever decides a run can decide by the list, and the run ends with their outcome |
| `ExactOutcomes.ListedHasRun` | dns/router.go:580-810 | for everybody who can decide by the list there is a run that they decide |
| `ExactOutcomes.DecidersExactly` | dns/router.go:580-900 | a rule decides some run if and only if it can decide by the list |
| `ExactOutcomes.OutcomesExactly` | docs/configuration/dns/rule_action.md:36-58 | an outcome ends some run if and only if it is the outcome of a rule that can decide by the list |
| `ExactOutcomes.ListedIsAllowed` | docs/configuration/dns/rule_action.md:36-58 | there is always such a rule, and its outcome is within the bound |
| `SentQueries.OnlyPermittedServers` | dns/router.go:405-421 | in every run a rule asks only known servers, a route only those of fake addresses if the query allows, and then uncached |
| `SentQueries.QueriesCarryTheirOptions` | dns/router.go:716-738 | in every run a query carries the options of the exchange overlaid by the option actions met before its rule and by its own, and is sent with the default strategy if the exchange has none |
| `SentQueries.RouteDecidesIff` | dns/router.go:405-421 | in every run a route that is met with nothing armed and its bindings answered decides if and only if its server is known and permitted, and is passed otherwise |
| `SentQueries.EndAnswers` | dns/router.go:648-768 | every run ends with what the action of its decider says: a default reject with a refusal and no error, a drop with an error and no response, a route with the reply of its server, a respond with the reply of the rule that asked, or the missing-response error |
| `SplitSweep.SplitSweepIff` | dns/router.go:783-784 | some matching tells sweeping before settling from sweeping after it if and only if a ready armed rule that would decide on a match binds by tag a query that was answered with a response and is not settled |
| `SplitSweep.HarmlessArrivals` | dns/router.go:783-784 | without such a rule the two orders give the same sweep, whatever the matching |
| `SplitSweep.HarmfulArrival` | dns/router.go:783-784 | with such a rule there is a matching for which it wins if settling comes first, and is judged and dropped if sweeping does |
| `SplitSweep.UnpublishedIsMissed` | dns/router.go:812-900 | a response that has arrived and is not settled is missing from what a rule that binds it sees, and is there once settled |
| `SplitSweep.SplitLosesTheAnswer` | dns/router.go:780-793 | a run into such a state: split, the race rule reports a missing response; in every run of the exchange it responds with the answer |
| `SplitRule.SplitRuleIff` | dns/router.go:589-646 | for a rule that does not race, some matching tells checking its bindings before settling the latest answers from settling them first if and only if nothing it binds is pending, it binds by tag an answered and unsettled query, and it would do something on a match |
| `SplitRule.HarmlessLateness` | dns/router.go:589-646 | otherwise the rule steps alike, whatever the matching, up to what settling itself records |
| `SplitRule.HarmfulLateness` | dns/router.go:633-715 | in that case there is a matching for which the two steps differ |
| `SplitRule.LateAnswerIsMissed` | dns/router.go:685-694 | a run to such a rule with no race rule in the list: late, it reports a missing response although the answer has arrived; the blocking interpreter responds with it |
| `RaceOrder.PrecederIsReady` | dns/router.go:588-630 | when a race rule is ready, so is every armed one listed before it that binds no more than it does, where the anonymous response is the same one if no untagged evaluate lies between |
| `RaceOrder.SweepJudgesPreceders` | dns/router.go:812-900 | a sweep with a winner has judged, and dropped, every such armed rule |
| `RaceOrder.RunOrdered` | dns/router.go:580-900 | over every run armed rules wait only for what they bind, and such rules are on record when a race rule decides |
| `RaceOrder.EarlierRaceIsJudgedFirst` | dns/router.go:812-900 | a race rule wins only after every earlier race rule that binds no more than it does, tags or anonymous response, was judged on all its answers, and missed |
| `WalkTheorems.SettlingPublishes` | dns/router.go:533-554 | an answered query that was not settled has no published response, and has it after settling |
| `RuleWalker.Walker.constructor` | dns/router.go:438-452 | a new walk stands at the first rule with nothing launched or armed |
| `RuleWalker.Walker.SettleFutures` | dns/router.go:533-554 | the loop in place computes the settled walk |
| `RuleWalker.Walker.SweepArmed` | dns/router.go:812-900 | the loop in place computes the sweep: what is kept, who lost, who won |
| `RuleWalker.Walker.Launch` | dns/router.go:508-531 | launching appends one future and returns its position |
| `RuleWalker.Walker.Arm` | dns/router.go:588-630 | arming in place computes the arming step |
| `RuleWalker.Walker.Act` | dns/router.go:655-762 | the action in place computes the action step |
| `RuleWalker.Walker.WalkRule` | dns/router.go:586-762 | one iteration of the loop in place computes the rule step |
| `RuleWalker.Walker.WalkRules` | dns/router.go:580-768 | the whole rule loop, with answers arriving between iterations, computes the iterated rule step |
| `RuleWalker.WalkFromOk` | dns/router.go:580-768 | the iterated rule step keeps the invariant and the open outcomes |
| `RuleValidation.ValidateRules` | dns/router.go:1516-1577 | validation accepts a list exactly if, field by field: no node has response or address conditions without `match_response` or accepts empty sets, no early rule-set is of addresses only, no logical `respond` has a tag below it, every response a node matches on or answers with is evaluated by an earlier rule, and no tag is defined twice |
| `RuleValidation.WellScopedIffAcceptable` | dns/router.go:1516-1577 | the loop's condition on uses is that condition on fields, both ways |
| `RuleValidation.TreeUseMeans` | dns/router.go:1600-1660 | a tree is refused exactly if some node of it is a ground for that; the uses found in it are exactly those of its nodes |
| `RuleOptions.BuildMeans` | route/rule/rule_dns.go:427-557 | a built rule binds exactly the responses that nodes of its tree match on, each once, and races and acts as configured |
| `RuleValidation.BoundTagsAreUsed` | dns/router.go:1600-1660 | every tag a rule binds is one that validation looked at |
| `RuleValidation.WellScopedIsValidated` | dns/router.go:1516-1577 | an accepted list, once built, has every bound tag defined by exactly one earlier `evaluate` |
| `RuleOptions.Uniq` | route/rule/rule_dns.go:523-562 | the bound tags of a logical rule are collected without duplicates and without loss |
| `LegacyMode.RuleFlagsMean` | dns/router.go:1447-1509 | the flags of a rule say exactly whether some node of its tree disables legacy mode, needs it, or sets a strategy |
| `LegacyMode.RulesFlagsMean` | dns/router.go:1435-1445 | the same for a list, and an error exactly if some node names a rule-set that cannot be read |
| `LegacyMode.ModeMeans` | dns/router.go:1421-1433 | on configured fields: a list is legacy exactly if some node needs it and none rules it out, and in error exactly if a rule-set cannot be read or a strategy meets a node that rules legacy mode out |
| `LegacyMode.UpdateAcceptedIffModeFits` | dns/router.go:234-283 | a started router accepts exactly the metadata updates after which its list still fits its mode |
| `LegacyMode.ModeFitsInEveryRun` | dns/router.go:234-283 | over every run of updates applied as they are accepted, the list fits the mode the router started in |
| `LegacyMode.NonLegacyStaysSound` | dns/router.go:371-395 | over every such run a router started out of legacy mode stays out of it, stays valid for the walker, and has no strategy in any rule tree |
| `LegacyMode.LegacyStaysLegacy` | dns/router.go:1662-1676 | over every such run a router started in legacy mode never acquires a node that disables legacy mode |
| `LegacyMode.NoStrategyInActions` | dns/router.go:1678-1689 | in such a list no built action carries a strategy, so skipping it loses nothing |
| `LegacyMode.LegacyFitsIff` | dns/router.go:1421-1445 | a list fits legacy mode exactly if every set it names can be read and no node of it disables the mode |
| `LegacyMode.WellScopedDepends` | dns/router.go:1516-1577 | whether a list stays acceptable when metadata changes depends only on the sets that are matched before there is a response |
| `LegacyMode.NonLegacyFitsIff` | dns/router.go:1421-1445 | such a list without strategies fits the other mode exactly if some node disables legacy mode or none needs it, and those sets are usable |
| `LegacyMode.LegacyRacingFits` | route/rule/rule_set.go:98-104 | however updates race, a legacy router keeps a list that fits if no pending update was harmful at its start |
| `LegacyMode.NonLegacyRacingFitsIff` | route/rule/rule_set.go:98-104 | under the same condition any other router has a list that does not fit exactly when no node disables legacy mode and some node needs it |
| `LegacyMode.HarmfulPendingMisfits` | route/rule/rule_set.go:98-104 | the condition is needed: any harmful update that is pending can be applied next, and then the list does not fit |
| `LegacyMode.PendingAtStartMisfits` | dns/router.go:234-283 | a run in which an update accepted before the start and applied after it leaves a legacy router with a list that disables legacy mode |
| `LegacyMode.RacingUpdatesMisfit` | route/rule/rule_set_remote.go:210-219 | the counterexample: two accepted updates that race leave a non-legacy router with a list that asks for legacy mode |
| `LegacyMode.RacingStaysSound` | dns/router.go:371-395 | however updates race, a router started out of legacy mode keeps a list that is valid for the walker and holds no strategy |
| `ServiceLifecycle.InterruptionReachesIff` | daemon/started_service.go:161-168 | whatever others do while a call holds the lifecycle lock, its instance stays, and an interruption reaches a start exactly if no reported error precedes it |
| `ServiceLifecycle.StartedService.StartOrReload` | daemon/started_service.go:255-310 | under any interference, the old and the new instance are each current or closed here, the new one is published exactly if it starts and no interruption reached it first, and the status left is that of the outcome |
| `ServiceLifecycle.StartedService.CloseService` | daemon/started_service.go:327-345 | under any interference, the instance is closed here if there is one and the service ends idle; with nothing to close nothing changes |
| `ServiceLifecycle.WorldNextOk` | daemon/started_service.go:251-352 | every step of every call keeps the lock, instance, position and interruption invariants |
| `ServiceLifecycle.InstancesAccounted` | daemon/started_service.go:251-352 | in every interleaving: started implies an instance, at most one created instance is unclosed, and each is current, held by the call inside, or closed exactly once |
| `ServiceLifecycle.InterruptedStartsNeverPublish` | daemon/started_service.go:161-168 | in every interleaving no start that was reached publishes |
| `LifecycleTheorems.EnteringCallsInterrupt` | daemon/started_service.go:251-296 | in every interleaving a start or close call that enters while an instance is starting interrupts that start: it is never published, and once it has returned its instance has been closed once |
| `LifecycleTheorems.StartsEndWell` | daemon/started_service.go:251-310 | in every interleaving a start returns refused and without effect, or published and current, or in error or interrupted with nothing current |
| `LifecycleTheorems.ClosesEndWell` | daemon/started_service.go:323-346 | in every interleaving a close call returns with nothing current and the service idle or in error |
| `LifecycleTheorems.NothingToCloseIsKept` | daemon/started_service.go:327-336 | a close call that finds no instance and no start changes nothing; any other takes the instance away |
| `LifecycleTheorems.SomeCallMoves` | daemon/started_service.go:251-346 | no deadlock: while some call has not returned, some call can move |
| `LifecycleTheorems.ClosedServiceStartsNothing` | daemon/started_service.go:255-259 | once the service is closed and no start is at work, nothing is created or published any more |
| `LifecycleTheorems.FreshServiceStarts` | daemon/started_service.go:251-310 | a run in which the first start of a fresh service is published |
| `ServiceLifecycle.QuietServiceLeaksNothing` | daemon/started_service.go:251-345 | while no call is inside, every instance but the current one has been closed exactly once |
| `EventStream.Stream.BuildInitial` | daemon/started_service.go:899-925 | the loops compute the first message and the snapshots of the active list |
| `EventStream.Stream.Drain` | daemon/started_service.go:857-879 | the loop over queued events computes one message and the snapshots after all of them |
| `EventStream.Stream.ObserveActive` | daemon/started_service.go:967-1029 | the loop over the active list computes deltas, pauses and new connections |
| `EventStream.Stream.IndexClosed` | daemon/started_service.go:1038-1043 | the closed list is indexed by connection, the last entry winning |
| `EventStream.Stream.BuildTrafficUpdates` | daemon/started_service.go:967-1062 | a tick observes the active list and then drops each stale snapshot exactly once, in any map order |
| `StreamTheorems.StartSends` | daemon/started_service.go:899-925 | the start of a run sends exactly the first message |
| `StreamTheorems.ReceiveSends` | daemon/started_service.go:927-965 | an event of a run sends exactly what the server sends for it |
| `StreamTheorems.DrainSends` | daemon/started_service.go:857-879 | handling queued events in one message is handling them one by one |
| `StreamTheorems.TickSends` | daemon/started_service.go:967-1062 | a tick of a run sends exactly what the server sends for it |
| `StreamTheorems.StreamRunOk` | daemon/started_service.go:837-890 | the stream invariant holds in every run of events and ticks |
| `StreamTheorems.OpenAreTheSnapshots` | experimental/libbox/command_types.go:129-171 | in every run the connections a replaying client holds open are the snapshot keys, less those first listed both active and closed |
| `StreamTheorems.AlwaysInStepIffListsDisjoint` | daemon/started_service.go:899-925 | client and snapshot keys agree in every run if and only if the active and closed lists read at the start share no connection |
| `StreamTheorems.ListedTwiceIsOutOfStep` | daemon/started_service.go:899-925 | the counterexample: one connection in both lists is followed by the server and closed for the client |
| `StreamTheorems.TickSynchronises` | daemon/started_service.go:967-1062 | after a tick the snapshot keys are the active connections; unless one of those was first listed twice, the client agrees, and nothing is listed twice any more |
| `StreamTheorems.InStepIsStable` | daemon/started_service.go:927-1062 | from then on the agreement is never lost |
| `StreamTheorems.TotalsAreConserved` | daemon/started_service.go:986-1012 | totals added up by the client, plus changes never sent because a counter went backwards, are the snapshot; they are equal exactly if those changes cancel out |
| `StreamTheorems.FallenCounterIsMissed` | daemon/started_service.go:991-1004 | the counterexample: a counter falls, and the client keeps the larger total |
| `StreamTheorems.NothingSkipped` | daemon/started_service.go:986-999 | while counters never go backwards nothing is skipped |
| `StreamTheorems.TotalsAreTheCounters` | daemon/started_service.go:967-1029 | while counters never go backwards, after each tick the client shows the exact counters of every open connection |
| `StreamTheorems.PausesAreSeparated` | daemon/started_service.go:988-1028 | between two zero updates of a connection there is one that is not zero |
| `StreamTheorems.LastUpdateTellsTraffic` | daemon/started_service.go:989-1028 | after each tick the last update of a connection carries traffic exactly if its counters rose since the snapshot before, so one that falls silent is told so |
| `StreamTheorems.EventShows` | daemon/started_service.go:857-879 | a connection that left is shown closed with its last totals, or with those shown before if none came; one that opened is shown open; nothing else changes |
| `StreamTheorems.StartShowsClosed` | daemon/started_service.go:899-925 | the first message shows every connection of the closed list closed, with its last totals there |
| `StreamTheorems.TickShowsClosed` | daemon/started_service.go:1030-1062 | a tick shows every connection that was followed and is not active closed, with its last totals in the closed list or else those shown before |
| `ResponseCache.FirstSoa` | dns/client.go:181-193 | the first SOA record of the authority section, if there is any |
| `ResponseCache.LifetimeIsUnique` | dns/client.go:195-213 | the specification of the lifetime admits one value |
| `ResponseCache.Message.NegativeLifetime` | dns/client.go:181-193 | the smaller of the TTL and the minimum of the first SOA record |
| `ResponseCache.Message.Lifetime` | dns/client.go:195-213 | the least positive TTL outside OPT records, zero if there is none; the SOA bound of section 5 of RFC 2308 for an empty answer |
| `ResponseCache.Message.Copy` | dns/client.go:583-586 | a copy is a new object with the same content |
| `ResponseCache.Message.Rewrite` | dns/client.go:215-224 | the loop over one section rewrites every TTL outside OPT records |
| `ResponseCache.Message.Normalize` | dns/client.go:215-224 | in place, every record outside OPT gets the TTL and nothing else changes |
| `ResponseCache.Message.Finish` | dns/client.go:632-638 | the lifetime, or the configured one, is returned and written to every record |
| `ResponseCache.MemoryCache.Store` | dns/client.go:484-504 | a zero lifetime is not stored; anything else replaces the entry with a copy of its own |
| `ResponseCache.MemoryCache.Load` | dns/client.go:555-587 | serves fresh, stale or nothing from a copy, and drops an entry that can be served no more |
| `ResponseCache.PersistentCache.Save` | dns/client.go:484-495 | an answer with a positive lifetime is found at once with its exact expiry, whatever is on disk, and no other key changes |
| `ResponseCache.PersistentCache.Load` | dns/client.go:589-613 | serves fresh, stale or nothing from the queued or else the written entry |
| `ResponseCache.PersistentCache.Flush` | experimental/cachefile/dns_cache.go:103-130 | writes again as long as newer answers come: once done the disk holds the latest one if the last write succeeded, none queued meanwhile is lost, and no other key changes |
| `ResponseCache.Client.Store` | dns/client.go:484-504 | whatever the store, an answer with a positive lifetime is kept under its key until its expiry, and no other key changes |
| `ResponseCache.Client.Load` | dns/client.go:555-570 | whatever the store, what is kept is served by the same rule from a message of its own, and only what can be served no more is forgotten |
| `CacheTheorems.NormalizedRecords` | dns/client.go:215-224 | after rewriting, every record outside OPT has the TTL, and kinds, data and OPT records are unchanged |
| `CacheTheorems.NormalizedTwice` | dns/client.go:215-224 | only the last rewriting of TTLs counts |
| `CacheTheorems.ServedInTime` | dns/client.go:572-586 | fresh exactly until expiry with the largest whole TTL that ends in time; stale exactly strictly inside the optimistic window, with TTL 1 |
| `CacheTheorems.NeverOutlivesUpstream` | dns/client.go:195-213 | what is served fresh ends within the lifetime of the response: within every positive TTL if there is an answer or no SOA record, and within the SOA bound if not |
| `CacheTheorems.EndsInTimeIff` | dns/client.go:195-213 | no record is ever served fresh past its own positive TTL if and only if the lifetime is at most each of them; so it always is when there is an answer, and for an empty answer exactly if the SOA bound is at most each |
| `CacheTheorems.FlushShortens` | experimental/cachefile/dns_cache.go:54-57 | writing an entry never lengthens its life and costs at most one second of TTL |
| `CacheTheorems.FlushIsExactIffWholeSecond` | experimental/cachefile/dns_cache.go:54-57 | a written entry is served like the exact one at all times if and only if it expires on a whole second |
| `CacheTheorems.MemoryServesLastKept` | dns/client.go:555-587 | over every run in time order, memory serves what the last positive-TTL answer deserves: dropping expired entries is never visible |
| `CacheTheorems.StoreServesLastKept` | dns/client.go:589-613 | over every run the persistent store finds the last positive-TTL answer, exact or cut to whole seconds |
| `CacheTheorems.StoresAgree` | dns/client.go:555-613 | over every run both stores answer alike for an entry that is still queued or expires on a whole second, and otherwise differ by at most a second |
| `CacheTheorems.FlushedStoresDiffer` | experimental/cachefile/dns_cache.go:54-57 | the counterexample: after a flush an answer is fresh in memory and gone from disk |
| `CacheTheorems.AnswersEndInTime` | dns/client.go:484-504 | over every run with failed writes, overtaken writes and cleanup, whatever is served was kept under that key, and ends within that lifetime or its optimistic window |
| `CacheTheorems.MemoryAnswersEndInTime` | dns/client.go:555-587 | over every run with evictions, whatever memory serves was kept under that key; fresh answers end within that lifetime, stale ones are served strictly inside its optimistic window |
| `ClientSubnet.SetThenRead` | dns/extension_edns0_subnet.go:62-106 | setting a subnet and reading it back gives the subnet with an IPv4-mapped address unmapped |
| `ClientSubnet.FamilyFitsAddress` | dns/extension_edns0_subnet.go:62-106 | the option sent has the family that the length of its address tells, and a prefix that fits it |
| `ClientSubnet.MappedMeans` | dns/extension_edns0_subnet.go:15-35 | the mapped addresses are those of ::ffff:0:0/96, and unmapping gives the last four bytes |
| `ClientSubnet.PrefixFits` | dns/extension_edns0_subnet.go:15-35 | a prefix may be as long as its address has bits, and no longer |
| `ClientSubnet.RemoveThenRead` | dns/extension_edns0_subnet.go:37-60 | after removal no subnet is read |
| `ClientSubnet.RemovesCodeEight` | dns/extension_edns0_subnet.go:37-60 | removal takes away exactly the options of code 8, whatever their form |
| `ClientSubnet.KeyMatchesWireIff` | dns/client.go:109-126 | the subnet in the cache key is the one the prepared message carries, for every message and options, if and only if the subnet put on it is not IPv4-mapped |
| `ClientSubnet.MappedSubnetIsLost` | dns/extension_edns0_subnet.go:26-30 | the counterexample: ::ffff:1.2.3.4/120 is in the key and is read back as no valid subnet |
| `ClientSubnet.KeyIgnoresPreparation` | dns/client.go:535-547 | keying a message before or after preparing it gives the same subnet |
| `ClientSubnet.PreparedTwice` | dns/client.go:684-696 | preparing a prepared message changes nothing |
| `ClientSubnet.SetIsIdempotent` | dns/extension_edns0_subnet.go:62-106 | setting the same subnet twice changes nothing the second time |
| `ClientSubnet.OptRecordAddedIff` | dns/extension_edns0_subnet.go:67-89 | an OPT record is added exactly if no record has a subnet option and the last one is not an OPT record |
| `ClientSubnet.SecondOptRecord` | dns/extension_edns0_subnet.go:67-89 | the counterexample: an OPT record followed by another record gets a second OPT record |
| `ClientSubnet.SetKeepsTheRest` | dns/extension_edns0_subnet.go:62-106 | setting a subnet changes no other option and no other record, and not their order |
| `ClientSubnet.RemoveKeepsTheRest` | dns/extension_edns0_subnet.go:37-60 | removal leaves exactly the options without the subnet code, in order, and every other record |
| `ClientSubnet.RemoveUndoesSet` | dns/extension_edns0_subnet.go:37-106 | removing after setting leaves the options and records that removing alone leaves |
| `ClientSubnet.DropSubnets` | dns/extension_edns0_subnet.go:49-58 | exactly the options with the subnet code go |
| `SubnetMessages.Copy` | dns/extension_edns0_subnet.go:90-92 | a whole copy stands for the same message and shares no record or option with it or within itself |
| `SubnetMessages.FindOption` | dns/extension_edns0_subnet.go:71-77 | the first subnet option of a record |
| `SubnetMessages.Find` | dns/extension_edns0_subnet.go:67-79 | the first subnet option with its record, or else the last record if that is an OPT record |
| `SubnetMessages.Read` | dns/extension_edns0_subnet.go:16-35 | reads the first subnet option, well formed or not |
| `SubnetMessages.SubnetOption.Fill` | dns/extension_edns0_subnet.go:98-104 | family, prefix length and address of section 6 of RFC 7871 |
| `SubnetMessages.Replace` | dns/extension_edns0_subnet.go:98-105 | rewriting the option in place changes that option of the message only |
| `SubnetMessages.Extend` | dns/extension_edns0_subnet.go:93-97 | adding the option in place changes that record of the message only |
| `SubnetMessages.AddRecord` | dns/extension_edns0_subnet.go:80-89 | a new OPT record goes on a new message that shares the other records |
| `SubnetMessages.SetSubnet` | dns/extension_edns0_subnet.go:62-106 | with `clone` nothing that existed is written, and the result is the specified message |
| `SubnetMessages.Filter` | dns/extension_edns0_subnet.go:54-56 | the options of one record without subnets, in place |
| `SubnetMessages.RemoveSubnet` | dns/extension_edns0_subnet.go:37-60 | nothing that existed is written; the result is the message without subnets |
| `SubnetMessages.Prepare` | dns/client.go:684-696 | preparing a message writes nothing that existed before, and gives the specified message |
| `SubnetMessages.Key` | dns/client.go:109-121 | the subnet part of the cache key |
| `TransportStart.IsReady` | dns/transport_manager.go:101-106 | a server is ready exactly if all its dependencies are started |
| `TransportStart.Pass` | dns/transport_manager.go:94-117 | one pass keeps the order sound, and when it starts nothing every server left is blocked |
| `TransportStart.Lint` | dns/transport_manager.go:125-142 | the diagnosis ends with a real dependency path to a repeated or a missing server |
| `TransportStart.StartTransports` | dns/transport_manager.go:90-146 | each server is started once and after its dependencies; without start failures it succeeds if and only if every dependency exists and there is no cycle; otherwise the diagnosis is genuine |
| `TransportStart.CompleteOrderIsSound` | dns/transport_manager.go:118-120 | an order that reaches every server leaves nothing missing and no cycle |
| `TransportStart.DiagnosisIsSound` | dns/transport_manager.go:125-142 | a genuine diagnosis shows a missing dependency or a cycle |
| `TransportStart.PathDescends` | dns/transport_manager.go:94-117 | along a dependency path the starting position falls |
| `ChunkReader.ChunksThenFile` | daemon/started_service_taildrop.go:257-276 | leading chunks only put their data in front of the file |
| `ChunkReader.Reader.constructor` | daemon/started_service_taildrop.go:204-209 | a new reader has handed out and acknowledged nothing |
| `ChunkReader.Reader.BeginFile` | daemon/started_service_taildrop.go:252-255 | a new file begins where the stream stands, with nothing handed out |
| `ChunkReader.Reader.Receive` | daemon/started_service_taildrop.go:262-274 | one message is taken; a broken stream or an unexpected message means there is no whole file |
| `ChunkReader.Reader.Read` | daemon/started_service_taildrop.go:257-284 | hands out the next bytes, at most as many as asked, at least one unless none was asked; the end comes exactly when the whole file was handed out; acknowledgements keep up |
| `ChunkReader.Reader.Acknowledge` | daemon/started_service_taildrop.go:277-282 | unacknowledged bytes stay below the interval, and reports are running totals an interval apart |
| `ChunkReader.Reader.WholeFile` | daemon/started_service_taildrop.go:286-311 | at the end marker the bytes handed out are the file |
| `ChunkReader.Reader.MoreToCome` | daemon/started_service_taildrop.go:288-290 | with bytes left in the buffer the file is not what was handed out |
| `ChunkReader.Reader.FinishFile` | daemon/started_service_taildrop.go:286-311 | finishing succeeds if and only if the stream holds a whole file there, all of it was handed out, and a declared size matches; then the buffer is empty |
| `ChunkReader.Reader.SendFile` | daemon/started_service_taildrop.go:210-233 | a file sent without error is exactly the next file of the stream, whatever the reads were |
| `ChunkReader.Reader.SendFiles` | daemon/started_service_taildrop.go:210-240 | files sent without error are exactly the files of the stream in order, with their declared sizes |
| `SavedBinary.UvarintRoundTrip` | adapter/experimental.go:101-104 | a length below 2^64 is read back from its varint, whatever follows |
| `SavedBinary.UvarintFits` | adapter/experimental.go:139-142 | an accepted varint fits in 64 bits and takes at most ten bytes |
| `SavedBinary.Int64RoundTrip` | adapter/experimental.go:109-112 | a signed 64-bit time is read back from its big-endian form |
| `SavedBinary.BigEndianAt` | adapter/experimental.go:109-112 | each byte has the weight of its place, the first being the most significant |
| `SavedBinary.UvarintAt` | adapter/experimental.go:101-116 | a varint holds seven bits a byte, the least significant first, and every byte but the last is marked |
| `SavedBinary.PrefixedRoundTrip` | adapter/experimental.go:101-108 | a length-prefixed field is read back, whatever follows |
| `SavedBinary.PrefixedIsInside` | adapter/experimental.go:143-150 | an accepted length lies within the remaining input |
| `SavedBinary.RoundTrip` | adapter/experimental.go:95-186 | decoding an encoding gives the fields back, whatever follows and whatever was there; before version 2 the hash is left alone |
| `SavedBinary.EncodingIsPrefixFree` | adapter/experimental.go:95-130 | no encoding is the beginning of another |
| `SavedBinary.DecodedFits` | adapter/experimental.go:132-186 | decoded fields fit their types and lie within the input |
| `SavedBinary.LongVarintIsAccepted` | adapter/experimental.go:139-142 | decoding accepts longer forms than encoding produces |
| `SavedBinary.WriteUvarint` | adapter/experimental.go:101-104 | the loop appends the varint |
| `SavedBinary.WriteInt64` | adapter/experimental.go:109-112 | the loop appends the big-endian integer |
| `SavedBinary.Cursor.ReadUvarint` | adapter/experimental.go:139-142 | the loop reads the varint and stands behind it, or fails |
| `SavedBinary.Cursor.ReadPrefixed` | adapter/experimental.go:139-150 | reads a field and stands behind it, or fails |
| `SavedBinary.Cursor.ReadInt64` | adapter/experimental.go:151-156 | reads the integer and stands behind it, or fails |
| `SavedBinary.Saved.MarshalBinary` | adapter/experimental.go:95-130 | produces the version 2 encoding |
| `SavedBinary.Saved.UnmarshalBinary` | adapter/experimental.go:132-186 | fills the fields in place as specified, also when it fails half way |
| `CloseReason.RegisterNextOk` | adapter/close_reason.go:92-109 | every step keeps the register invariant and only appends to its history |
| `CloseReason.CallsAreWaitFree` | adapter/close_reason.go:92-120 | whatever the others do, a call that has not returned can take a step that counts, and takes at most eight with at most three failed swaps |
| `CloseReason.PriorityNeverFalls` | adapter/close_reason.go:92-132 | over every interleaving the stored priority never falls, and the reason changes only to a higher one |
| `CloseReason.FirstOfTheHighestWins` | adapter/close_reason.go:92-120 | once all calls returned, the register holds the first installed reason of the highest priority proposed, and is empty only if none was |
| `CloseReason.FailuresPrevail` | adapter/close_reason.go:92-120 | once all calls returned, the reason is a failure exactly if one was proposed, and a clean end exactly if one was and no failure was |
| `SingleFlight.ClientNextOk` | dns/client.go:246-417 | every step of every exchange, through each of its exits, keeps the lock table, channel and operation invariants |
| `SingleFlight.AtMostOneOwner` | dns/client.go:289-307 | per key at most one unreleased exchange owns the lock entry |
| `SingleFlight.EverythingIsReleased` | dns/client.go:381-417 | when all exchanges are at rest, whichever exit each took, the lock table is empty, every channel was closed once, and each returned once or called back exactly as often as the transport did |
| `SingleFlight.NothingHappensTwice` | dns/client.go:246-251 | however often transports call back, no channel is closed twice, and results never exceed the calls back, or one |
| `SingleFlight.PostedHoldsUntilCalledBack` | dns/client.go:394-417 | an exchange handed to the transport keeps its lock entry exactly until the first call back |
| `InFlight.OneInFlightUnlessWaited` | dns/client.go:289-302 | of two exchanges in flight for one key, one waited for the lock |
| `InFlight.TwoInFlight` | dns/client.go:290-302 | and for every key there is a run with two in flight |
| `OverlappingRelease.ClosedOnceIffNotOverlapping` | dns/client.go:246-251 | of two calls back in any interleaving, the channel is closed twice if in the schedule one makes its first step when the other has made between one and three of its four, and exactly once if not |
| `OverlappingRelease.OverlapClosesTwice` | dns/client.go:246-251 | the counterexample: two calls back that overlap close the channel twice |
| `SingleFlight.WaitersAreServed` | dns/client.go:290-299 | a channel waited for is closed, or its maker is not waiting itself and will close it |
| `ExchangeExits.WaitersWait` | dns/client.go:281-294 | in every run an exchange that waits goes on only when the channel is closed and its maker has given the lock up |
| `ExchangeExits.StepsLeadToRest` | dns/client.go:253-420 | every step of an exchange that is not at rest brings it nearer, so it takes at most thirteen |
| `ExchangeExits.ExchangeMoves` | dns/client.go:253-420 | an exchange that is not at rest and waits for no open channel can move |
| `ExchangeExits.ExitsAreTakenBy` | dns/client.go:253-420 | in every run each way out was taken by an exchange of the kind the client lets out there |
| `ExchangeExits.EveryExitIsTaken` | dns/client.go:253-420 | a run for each way out, for every key |
| `ExchangeExits.KeyChangesWhileWaiting` | dns/client.go:292-293 | a run in which an exchange waits under one key and goes on under another |

## Left out

- SubnetMessages.AddRecord: does not model that appending may write into spare capacity of the caller's list, so that two messages made from one can overwrite each other's added record.
- DnsRules.WinnersStayAllowed: speaks of a bound, which can be larger than the set of outcomes; `ExactOutcomes.OutcomesExactly` gives the set.
- WalkTheorems.ExchangeIsAllowed: an upper bound in the same sense when several race rules can decide; `ExactOutcomes.EndIsListed` is the exact form.
- The legacy evaluation path (`matchDNS`, `exchangeLegacy`, the legacy part of `Lookup`): simpler than the walk, and built on rule code that is not part of this model.
- Internals of `Match`, of rule actions other than their effect on the walk, and of `validateEvaluateFakeIPRules`, which refuses configurations and changes no run.
- Warnings returned by validation, logging, reverse mapping, answer observers, and the missing-router error of rule-set lookups.
- Cancelling the remaining queries when an exchange ends, and the per-query context: they only stop work whose result is not read.
- The address filter hints removed from HTTPS answers, response rejection and its cache, background refresh, and the choice not to serve stale answers per query.
- `disable_expire` mode and query classes other than IN: the timed properties do not apply to the first, and the persistent key omits the class.
- Rounding of durations to floating point: remaining time is divided exactly.
- Which entries the bounded memory cache evicts: any entry may go at any step, and the agreement of the two stores speaks of entries that were not evicted.
- `Create`, `Remove` and `Close` of the server manager, and lists with repeated tags, for which starting does not end with a diagnosis.
- Eviction of closed connections by the client of the stream, its filters and its rate fields: they do not change which connections are open.
- Progress messages of file transfers, and overflow of byte counts above 2^63.
- The nil receiver of the close reason register, and the classification of errors into reasons.
- Generated protocol code, SSH, STUN and network-quality handlers, hubs and registries: plumbing around libraries.
