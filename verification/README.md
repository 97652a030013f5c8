# A Dafny model of amnezia-box's DNS engine and daemon protocols

The project models the parts of the program whose correctness depends on order, concurrency or
time, and proves what they promise for every input and every run.

- **The DNS rule walker** (`Walk*.dfy`). `walkDNSRules` interprets a rule list. Evaluate rules
  launch exchanges that finish later, bound rules wait for them, race rules are armed and swept,
  speculative rules start early, and the walk suspends and resumes. `WalkMachine` is that
  interpreter as a state machine whose steps are turns of the driver, completions and wake-ups.
  `WalkDriver` is the same code in its own form: a class with loops. `WalkSpec` is the reference:
  a walker that blocks at each evaluate. Every rule has a *verdict* on the reference path. Any run,
  under any order of completions and either driver, ends with the verdict of a rule that was
  allowed to end it. Every call of a driver ends, under every schedule of the network: before each
  of the driver's steps any number of futures may complete or signal, in any order, and a silent
  network is made to move only where the driver can do nothing but wait.
- **Rule mode and validation** (`RuleValidation.dfy`, `WalkValidated.dfy`). What mode resolution
  and validation decide over whole rule trees, and that validation gives the walker what it needs.
- **The DNS client** (`Client*.dfy`, `ResponseTtl.dfy`, `EdnsSubnet.dfy`). Exchanges that share one
  lock per key, the cache with its deadlines and optimistic window, background refreshes, the
  arithmetic of times to live, and the client subnet option on the wire and in the cache key.
  `ClientMachine` is the interleaving of any number of exchanges; `ClientExchange` is one exchange
  in the source's own form, a class updated in place; `ClientAlone` shows that the two agree.
- **Transport start order** (`TransportStart.dfy`), **service lifecycle** (`ServiceLifecycle.dfy`),
  **connection events** (`ConnectionEvents.dfy`), **scopes** (`ScopeTree.dfy`), **file transfer
  framing** (`Taildrop.dfy`) and the **saved binary format** (`SavedBinary.dfy`).

Assumptions, all explicit in the model:

- A rule's match is a pure function of the query and of the responses the rule binds. An exchange
  is an oracle of the rule that sends it, the transport and the options. A response checker is a
  pure function.
- In the walker, settling, the test for resolved futures and the match of one rule happen without a
  completion in between, and so do settling and the sweep that follows it. A future that closed
  between the settle and the test would count as resolved before its response is filed.
- The walker and the exchanges are modelled without context cancellation, except where a waiting
  client exchange is cancelled.
- In `ServiceLifecycle`, a section under the inner lock is one step. In `ClientMachine`, each
  access to a shared map or to the cache is one step.
- The clock never runs backwards. The memory cache and the persistent store are maps with
  deadlines that may lose any entry at any time; a stored message is read back as it was written.
  A deadline is cut to whole units: to seconds by the persistent store, and by the memory cache,
  whose own code is not part of this model, to a unit that is a parameter, anything up to a second.
- The counters of a connection are read at one instant and never go down, where a lemma says so.

Where the code does less than one would expect, one lemma says exactly when and another gives an
input: `EdnsSubnet.SetThenRead` and `KeyMatchesWire`, with `MappedIsLost` and `MappedKeyMissesWire`
(IPv4-mapped prefixes); `EdnsSubnet.SetKeepsOneOpt`, with `SecondOptIsAdded` (a second OPT record);
`ResponseTtl.ComputedNeverRaises`, with `ZeroIsRaised` (a zero time to live beside a positive one);
`ClientModel.SecondsLeftAreRight`, with `RoundingUpHappens` (whole seconds cut from a double);
`ClientModel.StoredComesBack` and `LoadAfterStore`, with `SecondIsMissing` and `StaleTooSoon`
(deadlines cut to whole seconds);
`ConnectionEvents.TickIsFaithful`, with `FallenCounterIsNotSeen` (a counter that went down);
`ConnectionEvents.ClosesNothingExactlyWhen`, with `ClosedTwice` (a connection closed twice);
`ScopeTree.LateCleanupIsLost` (a cleanup added to a closed scope); `Taildrop.SenderIsNeverStuck`,
with `SmallWindowCanStick` (a window below the report interval); and `SavedBinaryCodec.RoundTrip`
(fractions of a second).

The comment at dns/router.go:1644-1646 says that rule-sets are refused when every one of them holds
only addresses. The code refuses at the first such set, and `RuleValidation` follows the code
(`CheckRuleSetsMeans`, with `PureSetIsRefusedBesideMixed`).

## Model

| member | source | states |
|---|---|---|
| `WalkTheorems.RunIsSound` | dns/router.go:575-946 | Every finished run, of either driver and under any order of completions, ends at a rule that may end it, with the result of that rule's verdict on the blocking walker's path: an ordinary rule only if no earlier rule has a verdict, a race rule only if no earlier ordinary rule has one |
| `WalkTheorems.OrderedRunIsSequential` | dns/router.go:575-946 | Without race rules both drivers return exactly what a walker that blocks at each evaluate returns |
| `WalkTheorems.SoundIsSequential` | dns/router.go:765-805 | Without race rules there is one sound result, the blocking walker's |
| `WalkTheorems.SequentialStopsFirst` | dns/router.go:575-763 | The blocking walker stops at the first rule with a verdict and returns what that verdict comes to |
| `WalkTheorems.EagerRunIsSequential` | dns/router.go:585-625 | If every exchange completes inside its launch, race and speculative rules give the blocking walker's result |
| `WalkTheorems.EraseKeepsSequential` | dns/router.go:657-733 | The blocking walker does not see race and speculative flags |
| `WalkTheorems.EagerRunMatchesErased` | dns/router.go:585-895 | A run whose exchanges complete inside their launches ends as any run of the same rules without the flags |
| `WalkCommit.OrdinaryRulesWaitForRaces` | dns/router.go:680-763 | In every run an ordinary rule is chosen only with no race rule armed and every rule before it without a verdict; a race rule only with no verdict at an earlier ordinary rule |
| `WalkRaces.LowestReadyRaceWins` | dns/router.go:807-895 | At every point of every run where the resume loop sweeps, the sweep commits the armed race rule of the lowest index that is ready and has a verdict, and commits nothing if and only if there is none |
| `WalkRaces.LowestReadyRaceWinsAtOnce` | dns/router.go:606-624 | At every point of every run where the walk arms a rule that waits for nothing, the sweep it makes at once commits the rule of the lowest index, among the armed ones and the new one, that is ready and has a verdict, and the walk goes on if and only if there is none |
| `WalkRaces.SweepPicksFirst` | dns/router.go:807-895 | The same for a sweep from any position before which nothing is ready |
| `WalkRaces.ArmPicksFirst` | dns/router.go:606-624 | The same for the sweep right after arming a rule that waits for nothing |
| `WalkRuns.StepKeepsInv` | dns/router.go:528-805 | Every step of the driver, every completion and every wake-up keeps the walk on the reference path: what is filed, armed, launched and pending is what the path asks for, and no wake-up is lost |
| `WalkRuns.RunKeepsInv` | dns/router.go:528-805 | The same at every point of every run |
| `WalkProgress.StepLowersRank` | dns/router.go:775-805 | Every step lowers a measure made of rules left, outstanding futures, armed rules and the stage |
| `WalkProgress.RunIsBounded` | dns/router.go:775-805 | No run takes more than 200 steps for each rule and 105 besides |
| `WalkProgress.BlockedIsOwed` | dns/router.go:516-524 | At every point of every run, a driver blocked on the one-slot wake channel has a token in it, or the very future it awaits has yet to signal, or, when it waits for race rules, a future of the first armed rule has |
| `WalkProgress.RunCanGoOn` | dns/router.go:775-805 | Short of a result some step is always possible: the walk is never stuck |
| `WalkHistory.EachRuleSendsOnce` | dns/router.go:503-526 | Across all suspensions no two exchanges come from one rule |
| `WalkHistory.TerminalIsItsOwn` | dns/router.go:721-733 | Only the rule that launched the speculative query consumes it |
| `WalkHistory.ArmedStaySorted` | dns/router.go:606-624 | Armed rules stay strictly sorted by index and behind the walk |
| `WalkHistory.SpineOptionsFold` | dns/router.go:655-656 | The options at a rule are the caller's folded over the route-options rules before it that match |
| `WalkHistory.SentOptions` | dns/router.go:711-733 | The exchange that ends a walk carries the caller's options folded over the matching route-options rules before the committing rule, then that rule's own; nothing later or local to an evaluate leaks in |
| `WalkFiles.FilesNeverChange` | dns/router.go:528-549 | From any point of any run to any later one, whatever the control, a named future stays the same and a filed response and its transport never change |
| `WalkDriver.RuleWalk.SettleFutures` | dns/router.go:528-549 | The loop files exactly the resolved futures that were not settled |
| `WalkDriver.RuleWalk.IsReady` | dns/router.go:811-817 | An armed rule is ready exactly when all futures it waits for are resolved |
| `WalkDriver.RuleWalk.SweepArmed` | dns/router.go:807-895 | The sweep in place over the armed list is the machine's sweep |
| `WalkDriver.RuleWalk.LaunchEvaluate` | dns/router.go:503-526 | A launch appends one future and changes nothing else |
| `WalkDriver.RuleWalk.Arm` | dns/router.go:585-625 | Arming a race rule, with the sweep when it waits for nothing |
| `WalkDriver.RuleWalk.EvaluateRule` | dns/router.go:657-679 | The evaluate branch is the machine's step |
| `WalkDriver.RuleWalk.RespondRule` | dns/router.go:680-710 | The respond branch is the machine's step |
| `WalkDriver.RuleWalk.RouteRule` | dns/router.go:711-733 | The route branch is the machine's step, speculative launch included |
| `WalkDriver.RuleWalk.MatchedRule` | dns/router.go:654-757 | The action of a matching rule is the machine's step |
| `WalkDriver.RuleWalk.WalkOne` | dns/router.go:580-653 | One turn of the rule loop is the machine's step |
| `WalkDriver.RuleWalk.Network` | dns/router.go:516-524 | Whatever completions and signals the network makes between two steps of the driver, the invariant is kept, and the measure falls if it makes any |
| `WalkDriver.RuleWalk.WalkRules` | dns/router.go:575-763 | For every schedule, with any number of completions and signals before each rule, the walk returns, keeps the invariant and lowers the measure |
| `WalkDriver.RuleWalk.AwaitWake` | dns/router.go:790-797 | For every schedule, whichever futures move and in whatever order, waiting on the wake channel ends, with the token taken and the invariant kept |
| `WalkDriver.RuleWalk.SettleAndSweep` | dns/router.go:778-785 | For every schedule, settling and sweeping keep the invariant and lower the measure |
| `WalkDriver.RuleWalk.Proceed` | dns/router.go:786-804 | For every schedule, also with completions between the sweep and the check, the loop waits or walks on after a sweep, keeping the invariant and lowering the measure |
| `WalkDriver.RuleWalk.FinishPending` | dns/router.go:897-921 | For every schedule, finishing a pending exchange ends and gives a sound result |
| `WalkDriver.RuleWalk.Resume` | dns/router.go:775-805 | The resume loop ends with a sound result for every schedule |
| `WalkDriver.ExchangeWithRules` | dns/router.go:765-773 | For every schedule the synchronous driver returns a sound result, and without race rules the blocking walker's |
| `WalkDriver.ExchangeWithRulesAsync` | dns/router.go:923-946 | The same for the asynchronous driver |
| `RuleValidation.RuleSetsMean` | dns/router.go:1491-1509 | Reading the metadata of a rule's rule-sets fails exactly when one is unknown, and otherwise gives exactly these flags: disabling for one with query types, needed for one with address ranges unless they match the source, and never a strategy |
| `RuleValidation.FlagsMean` | dns/router.go:1460-1509 | The flags of a rule tree exist exactly when no rule at any depth names an unknown rule-set, and say exactly whether a strategy, a disabling rule or one that needs the legacy mode occurs at any depth |
| `RuleValidation.FlagsMeanIn` | dns/router.go:1448-1458 | The same for a rule list |
| `RuleValidation.ModeExactly` | dns/router.go:1434-1446 | A mode is resolved exactly when no rule-set is unknown and no strategy meets a disabling rule; it is the legacy mode exactly when no rule at any depth disables and some rule needs it |
| `RuleValidation.NonLegacyHasNoStrategy` | dns/router.go:1434-1446 | Outside the legacy mode no rule at any depth carries a strategy, which is what applying route options relies on |
| `RuleValidation.LegacyHasNoDisabling` | dns/router.go:1434-1446 | In the legacy mode no rule at any depth is a disabling one |
| `RuleValidation.CheckRuleSetsMeans` | dns/router.go:1647-1657 | A rule's rule-sets are accepted exactly when all are known and none holds nothing but addresses |
| `RuleValidation.PureSetIsRefusedBesideMixed` | dns/router.go:1647-1657 | A set of addresses only is refused also beside a mixed one |
| `RuleValidation.ValidateRules` | dns/router.go:1529-1590 | The loop accepts exactly the lists in which every rule is valid where it stands: what it binds is defined before it, and it defines no tag a second time |
| `RuleValidation.Router.Start` | dns/router.go:149-164 | Succeeds exactly when a mode is resolved and, outside the legacy mode, the rules are valid; the router then runs in that mode, unless it was closing meanwhile, and after a failure it is not started |
| `RuleValidation.Router.ValidateRuleSetMetadataUpdate` | dns/router.go:229-278 | Exactly which metadata updates are accepted, before and after the start and while closing |
| `RuleValidation.AcceptedKeepsMode` | dns/router.go:259-278 | An accepted update leaves rules that fit the mode |
| `RuleValidation.UpdatesKeepMode` | dns/router.go:229-278 | Over any sequence of accepted updates, non-legacy stays non-legacy and valid, and legacy never acquires a disabling rule |
| `WalkValidated.BoundAreReferenced` | dns/router.go:1613-1673 | Every tag a built rule binds is one validation saw referenced |
| `WalkValidated.ValidatedIsWellFormed` | dns/router.go:1529-1590 | A validated list, once built, has everything the walker's theorems ask for |
| `WalkValidated.ValidatedRunIsSound` | dns/router.go:1529-1590 | Every finished run over a validated rule list, once built, is sound, and without race rules gives the blocking walker's result |
| `WalkValidated.DefinedOnce` | dns/router.go:1566-1582 | In a validated list each evaluate tag is defined by one rule |
| `WalkValidated.DefinedBefore` | dns/router.go:1560-1565 | In a validated list a tag is defined before every rule that binds it |
| `EdnsSubnet.SetIsReadFirst` | dns/extension_edns0_subnet.go:62-106 | Setting puts the option where reading looks first |
| `EdnsSubnet.SetThenRead` | dns/extension_edns0_subnet.go:12-35 | Setting a valid prefix and reading returns it if and only if it is not an IPv4-mapped IPv6 prefix |
| `EdnsSubnet.MappedIsLost` | dns/extension_edns0_subnet.go:27-31 | In any message, ::ffff:192.0.2.1/24 reads back as 192.0.2.1/24, and ::ffff:192.0.2.1/120 as nothing |
| `EdnsSubnet.SetKeepsUnrelated` | dns/extension_edns0_subnet.go:62-106 | Setting keeps every record in place and every other option; at most it adds one OPT record that holds nothing else |
| `EdnsSubnet.RemoveThenRead` | dns/extension_edns0_subnet.go:37-60 | After removing, reading finds nothing |
| `EdnsSubnet.SetThenRemove` | dns/extension_edns0_subnet.go:37-106 | Removing undoes setting, except that an added OPT record stays, empty |
| `EdnsSubnet.SetKeepsOneOpt` | dns/extension_edns0_subnet.go:67-92 | A message with at most one OPT record (section 6.1.1 of RFC 6891) keeps at most one if and only if its OPT record comes last or already holds a subnet |
| `EdnsSubnet.SecondOptIsAdded` | dns/extension_edns0_subnet.go:67-92 | An OPT record before another record gets a second OPT record beside it |
| `EdnsSubnet.KeyMatchesWire` | dns/client.go:115-132 | The subnet in the cache key is the one sent on the wire, if and only if no IPv4-mapped prefix is set |
| `EdnsSubnet.MappedKeyMissesWire` | dns/client.go:115-132 | With ::ffff:192.0.2.1/24 set, the key holds another subnet than the one sent |
| `EdnsSubnet.CopyExtra` | dns/extension_edns0_subnet.go:49-49 | The copy has the same records and options in new OPT records |
| `EdnsSubnet.FindSubnet` | dns/extension_edns0_subnet.go:63-79 | The search ends at the first subnet option, or with the last record in hand if that is an OPT record, or with nothing |
| `EdnsSubnet.WriteOption` | dns/extension_edns0_subnet.go:93-104 | The record's option list changes only in the subnet option written |
| `EdnsSubnet.EditSubnet` | dns/extension_edns0_subnet.go:62-106 | The edit in place is setting by value |
| `EdnsSubnet.SetClientSubnet` | dns/extension_edns0_subnet.go:12-14 | The result is setting by value, and no record of the caller's message is written to |
| `EdnsSubnet.RemoveClientSubnet` | dns/extension_edns0_subnet.go:37-60 | The result is removing by value, and no record of the caller's message is written to |
| `EdnsSubnet.DropEach` | dns/extension_edns0_subnet.go:50-58 | The loop in place removes every option with the subnet's code |
| `ResponseTtl.TimeToLiveIsUnique` | dns/client.go:187-219 | A response has one time to live |
| `ResponseTtl.Response.ExtractNegativeTtl` | dns/client.go:187-199 | Finds an SOA record exactly when there is one, and gives the lesser of the first one's own time to live and its minimum field (section 5 of RFC 2308), else 0 |
| `ResponseTtl.Response.ScanList` | dns/client.go:208-217 | The loop keeps the least positive time to live of the records seen that are not OPT |
| `ResponseTtl.Response.ComputeTimeToLive` | dns/client.go:201-219 | The negative rule for an answer without records and with an SOA record, otherwise the least positive time to live of the records that are not OPT, or 0 |
| `ResponseTtl.Response.NormalizeList` | dns/client.go:223-228 | The loop writes the time to live to every record of a list but OPT records |
| `ResponseTtl.Response.NormalizeTtl` | dns/client.go:221-230 | The same for the whole response |
| `ResponseTtl.NormalizeIsUniform` | dns/client.go:221-230 | Afterwards every record that is not OPT has the time to live written |
| `ResponseTtl.NormalizeThenCompute` | dns/client.go:201-230 | A response with an answer, once normalized, computes to what was written |
| `ResponseTtl.ComputedNeverRaises` | dns/client.go:674-679 | Writing the computed time to live raises no record's own if and only if no record has less; outside negative answers, if and only if zero and positive times to live do not meet |
| `ResponseTtl.ZeroIsRaised` | dns/client.go:674-679 | With times to live 0 and 60 in one answer, 60 is computed and the record of 0 is raised |
| `ResponseTtl.Response.ApplyResponseOptions` | dns/client.go:657-680 | Hints of the excluded family go, the time to live is the rewritten or the computed one, and every record gets it |
| `ResponseTtl.FilterKeepsTtl` | dns/client.go:658-674 | Filtering address hints does not change the time to live |
| `ClientModel.QuerySubnetIsSent` | dns/client.go:286-297 | The subnet a query is filed under is the same before and after the message is prepared, and is the one sent if and only if no IPv4-mapped prefix is set |
| `ClientModel.LoadAfterStore` | dns/client.go:520-655 | What one load after one store serves: fresh if and only if the age is within the entry's life, with the seconds left of it, less than a second short and over by at most the slack of a double, over at all only when rounded up; stale if and only if inside the optimistic window after that life, with 1; otherwise nothing. The life is the time to live, less than a unit of the cache cut off |
| `ClientModel.SecondsLeftAreRight` | dns/client.go:625-628 | The seconds left, cut from a double, are less than a second short; they are more than what is left if and only if the double rounded up, and then by at most the slack: nothing below 2^24 seconds, 238 nanoseconds at most |
| `ClientModel.RoundingUpHappens` | dns/client.go:625-628 | Of 2^24 + 1 seconds, one nanosecond after the store, all are said to be left |
| `ClientModel.StoreThenLoad` | dns/client.go:520-655 | Loading right after storing returns the reply, with its whole time to live if no more is cut off the deadline than a double rounds away or nothing expires, and otherwise with exactly one second less |
| `ClientModel.StoredComesBack` | dns/client.go:520-655 | So the reply comes back as it was stored if and only if that little is cut off, or it holds nothing with a time to live |
| `ClientModel.PersistentCut` | experimental/cachefile/dns_cache.go:60-64 | The persistent store cuts off exactly the fraction of the second at which the reply is stored |
| `ClientModel.SecondIsMissing` | experimental/cachefile/dns_cache.go:60-64 | Stored half a second past a full one, a reply for 60 seconds is served with 59 at once |
| `ClientModel.StaleTooSoon` | experimental/cachefile/dns_cache.go:60-64 | Stored half a second past a full one, a reply for one second is stale at an age of 0.7 seconds |
| `ClientExchange.Client.Load` | dns/client.go:597-655 | The load in place, with its removal of a dead entry |
| `ClientExchange.Client.Save` | dns/client.go:520-540 | The store in place, with its deadline cut to the cache's unit; a time to live of 0 stores nothing |
| `ClientExchange.Client.Finish` | dns/client.go:363-402 | A rejected reply is reported and changes nothing; an accepted one is adjusted in place, returned, and filed exactly when it may be |
| `ClientExchange.Client.Exchange` | dns/client.go:404-420 | An exchange nobody interferes with, from the load over the transport to the store: its result, the cache it leaves and whether the transport was asked |
| `ClientExchange.AskedOnce` | dns/client.go:259-420 | A filed reply answers the same question asked again at once, without the transport and in the same words, but for one second exactly where the cache cut too much off its deadline |
| `ClientAlone.LoneRunIsAlone` | dns/client.go:259-453 | A run of the machine in which one exchange or lookup acts and nobody else does ends with the result, the cache and the asking of an exchange nobody interferes with |
| `ClientAlone.LoneRunExists` | dns/client.go:259-453 | From every reachable state in which nobody holds the exchange's lock there is such a run, whatever the transport answers |
| `ClientAlone.LookupIsExchange` | dns/client.go:542-595 | A lookup that is not answered early comes to the same as an exchange, though it goes to the cache twice |
| `ClientInvariant.ThreadsKept` | dns/client.go:259-420 | Every event leaves every exchange and refresh in order: who may own, who must not, and what may be filed |
| `ClientInvariant.FinishOk` | dns/client.go:363-388 | Only an accepted, cacheable reply under a current key is filed |
| `ClientInvariant.JudgeOk` | dns/client.go:696-727 | The same for a background refresh |
| `ClientLocks.LocksKept` | dns/client.go:296-453 | Every event keeps lock map, channels and waiters in step |
| `ClientLocks.RefreshesKept` | dns/client.go:682-689 | Every event keeps the refresh marks in step with the running refreshes |
| `ClientTheorems.StepKeepsInv` | dns/client.go:259-453 | Every event of any exchange or refresh, of a transport, the clock, the environment or the cache's eviction keeps the whole invariant |
| `ClientTheorems.RunKeepsInv` | dns/client.go:259-453 | The same over every run |
| `ClientTheorems.SingleFlight` | dns/client.go:296-306 | At most one unreleased owner per exchange key, and a lock entry exactly while there is one |
| `ClientTheorems.OnlyWokenWaitersSend` | dns/client.go:326-344 | At every reachable state, an exchange that uses the cache and owns nothing gets to ask the transport only after it waited on another's channel and that owner closed it |
| `ClientTheorems.ClosedExactlyOnce` | dns/client.go:252-257 | No channel is closed twice, and no exchange that made one ends without closing it |
| `ClientTheorems.ClosedStays` | dns/client.go:302-305 | A closed channel stays closed |
| `ClientTheorems.WaiterIsOwed` | dns/client.go:326-344 | A waiter's one channel is closed, or belongs to an owner that itself waits for nobody |
| `ClientTheorems.OwnerNearsRelease` | dns/client.go:404-453 | Each event of an owner brings its release nearer, on every path, and no other event moves it |
| `ClientTheorems.OwnerReleases` | dns/client.go:404-453 | However a run goes on, on every path, failing ones included, an owner has closed its channel or still owns it and is nearer to closing it by at least the events it had; so it is closed after as many events as its stage has left, seven at most |
| `ClientProgress.EventAdvances` | dns/client.go:259-453 | Each event of an exchange takes it to a later stage, and no other event moves it |
| `ClientProgress.ExchangeIsBounded` | dns/client.go:259-453 | Over any run an exchange has at most as many events of its own as stages left, fourteen in all |
| `ClientProgress.WaitsAtMostOnce` | dns/client.go:326-344 | An exchange that has waited and been woken never waits again |
| `ClientProgress.ExchangeCanGoOn` | dns/client.go:326-453 | An exchange that is not done can go on, unless it waits for its transport or for an open channel |
| `ClientTheorems.OneRefreshPerKey` | dns/client.go:682-689 | At most one refresh per key runs, and the key is marked exactly while it does |
| `ClientTheorems.HitIsServedFrom` | dns/client.go:597-655 | Whatever a load finds was filed by a store and is as fresh as it claims |
| `ClientTheorems.EntriesWereFiled` | dns/client.go:363-388 | Every cache entry is a reply with rcode success or NXDOMAIN that its query's checker accepted, with a positive time to live on every record, filed under the environment read when its exchange or refresh finished, which is the starting one unless that was unset |
| `ClientTheorems.ExchangeFilesUnderCurrent` | dns/client.go:134-141 | What a finishing exchange files is filed under the environment its transport has at that moment |
| `ClientTheorems.RefreshFilesUnderCurrent` | dns/client.go:722-727 | The same for a background refresh |
| `ClientTheorems.FilesExactlyWhen` | dns/client.go:363-388 | A finishing exchange files its reply if and only if the cache is in use, the reply is cacheable and accepted, and its environment was unset or is unchanged |
| `ClientTheorems.FiledIsServed` | dns/client.go:382-388 | What was just filed is what a load under its key finds, with its whole time to live or, exactly where the cache cut too much off the deadline, a second less |
| `ClientTheorems.ServedIsFresh` | dns/client.go:597-655 | Over every run with expiry: a fresh cached answer's age plus the time to live of each record is at most the life of its entry, plus the slack of a double (nothing below 2^24 seconds, 238 nanoseconds at most); a stale one is served only inside the optimistic window after that life, to a query that allows it, with 1. The life is the stored time to live, less than a unit of the cache cut off, which is a second for the persistent store; without a rewrite the stored one is the response's own |
| `TransportStart.NextInOrder` | dns/transport_manager.go:86-93 | Starting a server whose dependencies have started extends a start order |
| `TransportStart.FullOrderIsSound` | dns/transport_manager.go:100-102 | A start order of all servers shows the graph closed and without cycles |
| `TransportStart.IsReady` | dns/transport_manager.go:86-91 | A server is ready exactly when all its dependencies have started |
| `TransportStart.StartPass` | dns/transport_manager.go:79-99 | One pass extends the start order, and changes nothing exactly when nothing can start |
| `TransportStart.Lint` | dns/transport_manager.go:109-124 | The diagnosis ends, and names a tag that is truly absent or a path that truly contains a cycle |
| `TransportStart.DiagnosisRefutes` | dns/transport_manager.go:114-122 | Either diagnosis shows the graph not closed or not acyclic |
| `TransportStart.StartTransports` | dns/transport_manager.go:76-128 | Succeeds if and only if the graph is closed and acyclic and no start fails; starts each server once, after its dependencies; otherwise its report is true |
| `TransportStart.Manager.Create` | dns/transport_manager.go:155-184 | Keeps tags distinct and the map by tag exact; a server with a new tag is registered, also where creating fails afterwards; and exactly when it succeeds |
| `TransportStart.Manager.Initialize` | dns/transport_manager.go:45-60 | Keeps tags distinct with the fallback server, and exactly when it succeeds |
| `TransportStart.Manager.Start` | dns/transport_manager.go:61-65 | The start stage on the registered servers: succeeds exactly for a closed graph without cycles whose starts succeed, and otherwise names the start that failed, a tag truly absent or a true cycle |
| `ServiceLifecycle.StepKeepsInv` | daemon/started_service.go:250-358 | Every step of every interleaving keeps the invariant over both locks, the instances and the status |
| `ServiceLifecycle.RunKeepsInv` | daemon/started_service.go:250-358 | The same over every run |
| `ServiceLifecycle.StartedHasInstance` | daemon/started_service.go:290-315 | With the inner lock free, STARTED means there is an instance, and it has not been closed |
| `ServiceLifecycle.NothingLeaks` | daemon/started_service.go:259-351 | With the outer lock free, an instance ever created is closed if and only if it is not the service's own |
| `ServiceLifecycle.InterruptedStartIsTakenOver` | daemon/started_service.go:160-167 | With the outer lock free, STARTING means another call is queued or the service is closed |
| `ServiceLifecycle.SettlesWhenQuiet` | daemon/started_service.go:295-302 | Once every call has returned the service is not left STARTING, unless it was closed |
| `ServiceLifecycle.OnlyHolderCloses` | daemon/started_service.go:342-344 | What a step closes was in the lock holder's hand and is not the service's instance |
| `ServiceLifecycle.NeverClosedTwice` | daemon/started_service.go:269-271 | An instance about to be closed has not been closed |
| `ServiceLifecycle.NeverDeadlocked` | daemon/started_service.go:250-254 | While a call is unfinished, some call can go on or waits only for its own instance |
| `ConnectionEvents.EventFits` | daemon/started_service.go:960-1018 | The event about one connection makes sense to a reader that adds up what it is told, and brings it to the snapshot if and only if no counter went down |
| `ConnectionEvents.EventsFit` | daemon/started_service.go:960-1018 | The same for all active connections |
| `ConnectionEvents.TickIsFaithful` | daemon/started_service.go:955-1051 | After a tick exactly the active connections are tracked, every event fits, no connection is closed twice in it, and the reader's totals are the snapshots if and only if no counter went down |
| `ConnectionEvents.FallenCounterIsNotSeen` | daemon/started_service.go:980-1018 | A connection whose uplink fell below 5 is updated in the snapshots and not for the reader |
| `ConnectionEvents.ReportIsFaithful` | daemon/started_service.go:915-953 | A report of an opened or ended connection keeps reader and snapshots the same |
| `ConnectionEvents.InitialIsFaithful` | daemon/started_service.go:887-913 | The initial state gives the reader exactly the snapshots of the active connections |
| `ConnectionEvents.StreamIsFaithful` | daemon/started_service.go:887-1051 | Over every stream: an update only for an open connection, zero only after more, and announced totals plus deltas are the snapshots |
| `ConnectionEvents.ClosesNothingExactlyWhen` | daemon/started_service.go:887-1051 | Over every stream, some connection is said to be closed that is not open if and only if some report of an end comes when the snapshots no longer hold the connection |
| `ConnectionEvents.RunClosesNothing` | daemon/started_service.go:915-1051 | The same from any snapshots on |
| `ConnectionEvents.ClosedTwice` | daemon/started_service.go:928-946 | A tick closes a connection that is gone, and the report of its end closes it again |
| `ConnectionEvents.Stream.BuildInitial` | daemon/started_service.go:887-913 | The loops announce the active, then the ended connections |
| `ConnectionEvents.Stream.Apply` | daemon/started_service.go:915-953 | One report applied in place |
| `ConnectionEvents.Stream.UpdateOne` | daemon/started_service.go:962-1018 | All branches for one active connection |
| `ConnectionEvents.Stream.UpdateActive` | daemon/started_service.go:960-1019 | The loop over the active connections |
| `ConnectionEvents.Stream.CloseGone` | daemon/started_service.go:1022-1048 | The loop closes exactly the tracked connections that are no longer active, each once in the list it returns, and nothing else changes |
| `ConnectionEvents.Stream.BuildUpdates` | daemon/started_service.go:955-1051 | The whole tick |
| `ScopeTree.LastInFirstOut` | adapter/lifecycle.go:136-138 | Everything registered after an entry runs first, then the entry with all below it, then everything registered before |
| `ScopeTree.RunsWhatIsRegistered` | adapter/lifecycle.go:128-142 | A cleanup runs if and only if it is registered in the scope or below it |
| `ScopeTree.RunsOnce` | adapter/lifecycle.go:128-142 | Cleanups registered once run once |
| `ScopeTree.ClosingKeeps` | adapter/lifecycle.go:129-134 | Closing leaves well-formed scopes, and closing again runs nothing |
| `ScopeTree.Scopes.Add` | adapter/lifecycle.go:85-89 | Appends one cleanup to the scope and changes nothing else, whether or not the scope is closed |
| `ScopeTree.LateCleanupIsLost` | adapter/lifecycle.go:85-89 | A cleanup added to a closed scope, whose parent is closed if it has one, is run by closing no scope but that one once more |
| `ScopeTree.Scopes.Start` | adapter/lifecycle.go:91-115 | One child scope per component, with its entry in the parent's list; all other scopes stay as they are; none once the context is cancelled |
| `ScopeTree.Scopes.Close` | adapter/lifecycle.go:128-142 | Runs exactly the cleanups of the tree in that order; everything below is closed and emptied, nothing else changes |
| `Taildrop.ChunkReader.BeginFile` | daemon/started_service_taildrop.go:252-255 | A file begins where the stream has been read to |
| `Taildrop.ChunkReader.Receive` | daemon/started_service_taildrop.go:262-273 | One message: a chunk fills the buffer, a mark ends the file, anything else is refused |
| `Taildrop.ChunkReader.Report` | daemon/started_service_taildrop.go:279-282 | Reports are at least an interval apart, and afterwards less than an interval is unacknowledged |
| `Taildrop.ChunkReader.Fill` | daemon/started_service_taildrop.go:258-274 | The loop stops at the next bytes, the end of the file or a broken stream |
| `Taildrop.ChunkReader.Read` | daemon/started_service_taildrop.go:257-284 | Exactly what a read returns; the bytes join the file, and less than an interval is left unacknowledged |
| `Taildrop.ChunkReader.Take` | daemon/started_service_taildrop.go:275-283 | The bytes taken join the file and the count, and a report follows once an interval is unacknowledged |
| `Taildrop.ChunkReader.Drain` | daemon/started_service_taildrop.go:287-306 | The loop succeeds if and only if nothing is left of the file but its end |
| `Taildrop.ChunkReader.FinishFile` | daemon/started_service_taildrop.go:286-311 | Succeeds if and only if nothing is left of the file and its size is as declared; then the bytes read are those up to the file's mark |
| `Taildrop.SendFile` | daemon/started_service_taildrop.go:212-232 | One file begun, read and finished is its segment of the stream |
| `Taildrop.SendFiles` | daemon/started_service_taildrop.go:204-239 | The k-th file finished is the k-th segment between end-of-file marks, with its declared size |
| `Taildrop.SenderIsNeverStuck` | daemon/started_service_taildrop.go:30-32 | With a window of at least the interval, at every point of every run of sender, reader and reports, a sender that cannot send has bytes or a report under way |
| `Taildrop.SmallWindowCanStick` | daemon/started_service_taildrop.go:30-32 | With any smaller window there is a run that leaves the sender stuck with nothing under way |
| `SavedBinaryCodec.UvarintRoundTrip` | adapter/experimental.go:65-65 | Varint decoding inverts encoding for every 64-bit value, whatever follows |
| `SavedBinaryCodec.UvarintIsUint64` | adapter/experimental.go:103-103 | No input decodes to a value beyond 64 bits |
| `SavedBinaryCodec.Int64RoundTrip` | adapter/experimental.go:73-73 | The eight bytes of a signed time decode to it |
| `SavedBinaryCodec.BytesRoundTrip` | adapter/experimental.go:65-72 | Length-prefixed bytes decode to themselves, whatever follows |
| `SavedBinaryCodec.RoundTrip` | adapter/experimental.go:59-150 | Decoding over any older value inverts encoding, if and only if the time is of whole seconds |
| `SavedBinaryCodec.OldVersionKeepsHash` | adapter/experimental.go:134-136 | A format before version 2, with anything after it, decodes and leaves the hash alone |
| `SavedBinaryCodec.DecodingLeavesSuffix` | adapter/experimental.go:96-150 | Decoding never goes beyond the input |
| `SavedBinaryCodec.EncodingIsInjective` | adapter/experimental.go:59-94 | Values with one encoding differ at most in fractions of a second |
| `SavedBinaryCodec.Reader.ReadUvarint` | adapter/experimental.go:103-106 | The loop with its shift is the decoding, with its limit of ten bytes |
| `SavedBinaryCodec.Reader.ReadInt64` | adapter/experimental.go:115-119 | Eight bytes or an error |
| `SavedBinaryCodec.Reader.ReadBytes` | adapter/experimental.go:121-132 | A length that must fit what is left, and that many bytes |
| `SavedBinaryCodec.SavedBinary.WriteUvarint` | adapter/experimental.go:65-68 | The loop appends the encoding |
| `SavedBinaryCodec.SavedBinary.Marshal` | adapter/experimental.go:59-94 | The buffer is the encoding |
| `SavedBinaryCodec.SavedBinary.Unmarshal` | adapter/experimental.go:96-150 | Succeeds if and only if the input decodes; the fields read before an error are kept, the others stay |

## Left out

- The legacy rule path (`matchDNS`), rule internals, and the reject method that answers: the walker's rules carry the default and drop methods.
- Context cancellation, deadlines, logging and deprecation reports, everywhere but in a waiting client exchange.
- Atomicity of settle, test and match within one rule, and of settle and sweep: assumed, as said above.
- Validation warnings, the check for nested rule actions, and the check that an evaluate does not use a fakeip server.
- Option fields the modelled code only passes on (the transport and lookup strategy of a query).
- Cache transparency as a whole: the key omits the strategy while address hints are filtered before storing, and the persistent key omits the query class, which `ClientModel.Filed` shows.
- The rejected-response store, packing and unpacking, the fix-up of OPT records in a finished response, and padding; a refusal by the store is an event that may happen at any time.
- The order of reply addresses and the two-family lookup, which would only add easy members.
- EdnsSubnet.SetClientSubnet: prefixes that are not valid are all one value, and the sharing of a slice's spare capacity between callers is not modelled.
- Closing transports in reverse dependency order: the source registers clean-up in configuration order.
- The text of a persistent key (dns/client.go:104-113): it joins tag, subnet and environment with control characters, so a tag that holds such characters could be taken for another key. `ClientModel.Filed` keeps the parts apart.
- Times to live beyond 32 bits, which no record can hold: `ClientModel.Slack` gives the rounding of a double up to there.
- Errors of cleanups and how they are joined. The scopes of a tree are kept in one list and named by position, so aliasing of scope objects is not captured.
- ServiceLifecycle.StepKeepsInv: the order in which status changes reach subscribers is not modelled.
- Taildrop.SendFiles: the transfer to the peer is any sequence of reads, and progress messages are not modelled.
- Generated code, protocol plumbing, option parsing and wiring.
