# Verification of the PostHog Go SDK's delivery, flag evaluation and MCP cores

This project models the parts of the SDK whose correctness is hardest to see by
reading, and proves what they promise:

- the **delivery pipeline**: a step system over every interleaving of
  producers, the batching loop, workers, flushes and close, with a ledger of
  callbacks (`Batching`, `Transport`, `TransportLedger`, `Pipeline`,
  `IntakeInvariant`, `PipelineInvariant`, `FlushInvariant`,
  `DeliveryGuarantees`), in legacy mode and under capture-v1, and the objects and
  loops behind its steps (`Deliveries`, `Channels`, `CaptureV1`);
- **local flag evaluation**: filters (`Filters`, `Operators`), the three-valued
  folding of filters, groups and conditions (`Reasons`, `Folding`,
  `FlagFolding`), bucketing (`Bucketing`), the load-time scan (`CohortScan`),
  the mutually recursive evaluator with its cache (`Evaluator`), its soundness
  (`Unrolling`), the cache (`DependencyCache`, `Uncached`, `Steadiness`,
  `CacheTransparency`), the order of filters through it (`FilterOrder`,
  `OrderExactness`, `SecureChains`, `SteadyDefinitions`, `FlagOrder`), early exit
  (`EarlyExit`), answers with more properties (`MoreProperties`), whom each
  condition is evaluated for (`Placement`), termination (`Acyclic`), the
  evaluator as methods over one mutable cache (`LocalEvaluation`), and the poller
  (`Poller`);
- the **MCP packages**: the tool catalog (`Catalog`, `ToolCatalog`), UTF-8 and
  truncation (`Utf8`, `Truncation`, `EventPruning`), the form codec and the
  URL splitter (`FormCodec`, `UrlSplit`).

Code that changes things step by step is written as methods over classes and
locals, each proved equal to a specification function; what the code promises is
proved of those functions. Concurrency is modelled as steps, one for each
operation another goroutine can observe; uploads, timers, listings and the
choices of the scheduler are nondeterministic. A message counts as accepted once
it is in the queue. Callbacks are taken not to panic.

## What does not hold

Six things a reader might expect are false of the code. Each has a concrete
input, and a condition that says when it does hold.

- With early exit, a conclusive enabled flag can become disabled once an
  earlier inconclusive condition resolves
  (`EarlyExit.EarlyExitUnsoundExample`). It stays enabled exactly when each such
  condition has a rollout that includes the identity or filters that cannot all
  be true (`EarlyExit.EarlyExitSoundIff`).
- So can one that depends on a variant of another flag, without early exit
  (`MoreProperties.VariantDependencyExample`). Dependencies that ask only whether
  a flag is on or off are safe (`MoreProperties.MorePropertiesAgree`).
- The load-time scan shares its visited cohorts between conditions of
  different aggregations and can miss an unusable filter
  (`CohortScan.MixedAggregationsExample`); `CohortScan.FlagScanIsExact` says
  exactly which it finds.
- The cache of dependency results, and through it the order of a condition's
  filters, can show when a dependency is unresolved, although the loop over the
  filters is documented as order-independent
  (`FilterOrder.OrderShowsThroughCache`). For one filter the cache is invisible
  exactly when the filter is steady (`FilterOrder.SteadyIff`); steady filters make
  calls independent of it (`CacheTransparency.CacheIsInvisible`). The place of a
  filter never shows exactly when it is undisturbed (`OrderExactness.OrderIff`),
  which is read off what the members of its chain come to without the cache.
  These results ask nothing of the filter itself, but that the filters of the
  flags and cohorts ranked below it, those its evaluation can reach, are steady;
  otherwise the same cause is at work further down. For definitions as a whole
  nothing remains to ask (`SteadyDefinitions.DefinitionsSteadyIff`).
  `SecureChains` gives a condition on the definitions alone, and
  `FilterOrder.OrderShowsWhenHidden` the shape of definition that fails.
- The order of filters can show without any dependency too: the code falls back
  to the server only for the first filter it could not check, so a condition with
  an inconclusive filter and one that requires the server lets the flag go on in
  one order and ends it in the other (`FlagOrder.OrderShowsInFlagExample`). `FlagOrder.ResultOrderIff` says exactly
  when every order gives a condition the same result, and
  `FlagOrder.FlagOrderIsInvisible` draws the conclusion for whole calls.
- A server that answers 304 to a request without an entity tag makes the poller
  publish nil definitions after a quota response
  (`Poller.NilPublishedExample`, `Poller.PublishesNilIff`).

## Model

| member | source | states |
|---|---|---|
| `DeliveryGuarantees.CloseNilToldEach` | posthog.go:1498-1535 | Over every interleaving of producers, loop, workers and close, in legacy mode and under capture-v1: when close returns nil, each message ever accepted into the queue has had exactly one callback, unless a capture-v1 answer left it out; in legacy mode none is left out. No delivery is live and the queue is closed. |
| `DeliveryGuarantees.CloseNilIsFinal` | posthog.go:1907-1931 | From that moment on nothing is accepted and no callback is made. |
| `DeliveryGuarantees.AtMostOneCallback` | posthog.go:1951-1965 | At any point of any run, in either mode, a message has had at most one callback, and only an accepted message has had any. |
| `DeliveryGuarantees.CallbacksAreHonest` | posthog.go:1625-1693 | Success is called only for messages of a batch the service accepted or, under capture-v1, answered event by event; Failure only for messages of a batch it did not accept; only such an answer leaves a message out; a refusal is only for an oversized message. |
| `DeliveryGuarantees.Bookkeeping` | flush.go:45-81 | A live delivery's channel is closed exactly while it is retrying; no channel is closed twice; the in-flight count is never negative and is zero between submissions only when nothing is live; no worker finds the batch queue closed and empty. |
| `DeliveryGuarantees.FlushBarrier` | flush.go:9-41 | In either mode, if a flush returned nil, each message accepted before the loop took it was refused, or no callback of its batch is still owed, or its batch was in retry backoff at some moment since. |
| `DeliveryGuarantees.FlushAwaitsNothingNewer` | posthog.go:1882-1898 | What a flush waits for holds no message accepted after the loop measured the queue for it. |
| `DeliveryGuarantees.FlushDrainNeverBlocks` | posthog.go:1885-1888 | The drain that serves a flush always finds the message it is about to receive. |
| `DeliveryGuarantees.BatchesRefineFifo` | posthog.go:1817-1872 | In every reachable state the batches, the open batch and the message in hand are the messages read that fit, in order; batches keep the count and byte limits; the running size is the true one. |
| `PipelineInvariant.StepKeeps` | posthog.go:1539-1693 | Every step of the composed pipeline keeps its whole invariant: queue, batcher, transport, ledger and shutdown order. |
| `PipelineInvariant.Conserved` | posthog.go:1817-1933 | Callbacks made, messages left out by an answer, callbacks owed, the open batch and the message in hand are together exactly the messages read: none lost, none doubled. |
| `FlushInvariant.RunKeeps` | posthog.go:1882-1898 | At every point of every run each flush being served covers all messages before its barrier. |
| `IntakeInvariant.LoopKeeps` | posthog.go:1874-1922 | Every step of the loop keeps queue, order, sizes and refusals. |
| `TransportInvariant.StepKeeps` | posthog.go:1539-1604 | Every step of sendBatch and of workers keeps the counts and channels, and the orphan receive is impossible. |
| `TransportInvariant.BeginKeeps` | flush.go:50-60 | A new attempt keeps the invariant, with a channel of its own after a retry. |
| `TransportInvariant.DeferKeeps` | flush.go:62-72 | Waiting to retry closes the attempt's channel once. |
| `TransportInvariant.CompleteKeeps` | flush.go:74-81 | Completing removes the delivery and leaves its last channel closed once. |
| `TransportLedger.StepLedger` | posthog.go:1951-1965 | The callbacks counted are at each step those that the deliveries have made. |
| `TransportLedger.ToldConserved` | posthog.go:1625-1693 | Over all batches, successes, failures, messages left out by an answer and callbacks still owed make up the batches' messages. |
| `TransportLedger.StepAccounts` | capture_v1_send.go:54-185 | Every step keeps each batch accounted for: of each message it is told, left out, kept for the next attempt or still owed. |
| `TransportLedger.Quiescence` | posthog.go:1607-1621 | With nothing in flight and no submission under way, no delivery is live and nothing is owed. |
| `Batching.BatcherRefinesFifo` | posthog.go:1826-1872 | Whatever is fed and whenever the batch is flushed, batches plus open batch are the messages that fit in order, the rest are refused, and every batch is well sized. |
| `Batching.FedIsOrderly` | posthog.go:1846-1872 | One message keeps the limits and adds exactly itself to the sequence, or to the refusals. |
| `Batching.Batcher.ProcessMessage` | posthog.go:1846-1872 | The method updates batch, running size and hand-overs as specified, refusing just the oversized. |
| `Batching.Batcher.Append` | posthog.go:1855-1870 | Flush if the message would overflow, append, flush if full; the running size stays the true sum. |
| `Batching.Batcher.FlushBatch` | posthog.go:1826-1837 | Hands over the open batch unless it is empty. |
| `Batching.Batcher.ResetBatch` | posthog.go:1840-1842 | Empties the batch and its size. |
| `Deliveries.Client.BeginDeliveryAttempt` | flush.go:50-60 | The delivery ends up open; its channel is new exactly after a retry. |
| `Deliveries.Client.DeferDeliveryRetry` | flush.go:62-72 | The delivery ends up retrying with its channel closed. |
| `Deliveries.Client.CompleteDelivery` | flush.go:74-81 | The delivery is removed and its channel closed, whether or not it was retrying. |
| `Deliveries.Client.Send` | posthog.go:1625-1693 | No upload if the batch cannot be marshalled, else at most maxAttempts; each message gets one callback, Success exactly when the batch is delivered, unless the worker panics, and then none; the channel discipline holds throughout. |
| `Deliveries.Client.ProcessBatch` | posthog.go:1539-1562 | The worker sends, completes the delivery and gives up its place in flight; each message gets one callback, Failure if the worker panicked; on a closed and empty queue it only gives up its place. |
| `Deliveries.EndingMeans` | posthog.go:1639-1693 | A batch is delivered if and only if some attempt within the budget is accepted, and its worker panics if and only if some attempt does, every earlier one having gone on to the next. |
| `CaptureV1.EveryEventSettled` | capture_v1_send.go:54-156 | For any server answers each event gets at most one callback, and gets one if and only if no 2xx answer that it was sent to omitted its uuid. |
| `CaptureV1.ResendsShrink` | capture_v1_send.go:117-135 | Each attempt carries an ascending selection of the previous one's events; of a 2xx answer exactly those asked to retry. |
| `CaptureV1.RunTells` | capture_v1_send.go:161-185 | The same for a delivery resumed at any attempt with any pending events. |
| `CaptureV1.AttemptAccounts` | capture_v1_send.go:62-155 | One attempt leaves each pending event told, omitted or pending again, and only one of these; the last attempt leaves none pending. |
| `CaptureV1.KeptMeans` | capture_v1_send.go:173-177 | The events kept for the next attempt are those the answer tagged retry. |
| `CaptureV1.SettledMeans` | capture_v1_send.go:166-183 | Each event the answer settles is told once, and no event it omits is told. |
| `CaptureV1.RetryDelay` | capture_v1_send.go:192-204 | The delay is at least the configured one, and at least the server's up to the ceiling; the ceiling never shortens the configured delay. |
| `CaptureV1.Client.SendV1` | capture_v1_send.go:54-156 | The loop uploads and calls back exactly as specified, with one request id and creation time and attempts numbered from 1; the delivery's channel is closed just while the batch waits, and each attempt after a wait has a new one. |
| `CaptureV1.ToldTruthfully` | capture_v1_send.go:54-185 | What an event is told is true of an attempt it was part of: success only if that answer accepted it, rejection only if it dropped it, exhaustion only if the last answer asked to retry it, a failed request only if it did not settle it, with the status and kind of error of that attempt. |
| `CaptureV1.Client.PartitionV1Results` | capture_v1_send.go:161-185 | The three slices stay aligned on the events to retry, and the others' callbacks are made in order. |
| `CaptureV1.Client.SendSettled` | capture_v1_send.go:111-136 | A 2xx answer ends the delivery, exhausts it or sends the rest again after the wait. |
| `CaptureV1.Client.SendUnsettled` | capture_v1_send.go:79-109 | A transport failure or retryable status fails everything or sends everything again. |
| `Reasons.PickIsMinimum` | featureflags.go:511-538 | The reason picked is one of the two, and the smaller in the order of precedence. |
| `Reasons.PickCommutes` | featureflags.go:525-538 | The order of two reasons does not matter. |
| `Reasons.PickAssociates` | featureflags.go:525-538 | Nor does the grouping of three. |
| `Reasons.PickIdempotent` | featureflags.go:528-538 | A reason picked with itself is itself. |
| `Folding.FiltersMean` | featureflags.go:1875-1924 | Without unclassified errors a condition's filters come to no match exactly if one is decided false, to match exactly if all are decided true, and are otherwise unresolved for the foremost reason. |
| `Folding.FiltersConclude` | featureflags.go:1875-1924 | A conclusive outcome has the decided filters that justify it, whatever the others raised. |
| `Folding.FilterOrderIsIrrelevant` | featureflags.go:1872-1924 | Permuting the outcomes of a condition's filters changes neither whether it matches, does not or is unresolved, nor the reported reason. |
| `Folding.ConclusiveIsSound` | feature_flag_property_group.go:36-115 | A conclusive group verdict equals two-valued evaluation under any truth values for the unresolved leaves. |
| `Folding.GroupMeans` | feature_flag_property_group.go:36-115 | A group without server-required or broken entries is decided by any decisive entry, wherever it stands; else unresolved entries leave it unresolved for the foremost of their reasons; else all its entries agree. |
| `Folding.ServerRequiredPropagates` | feature_flag_property_group.go:36-115 | An entry that requires the server, reached before a decisive or broken one, makes the group require the server. |
| `FlagFolding.ConclusiveFalseIsSound` | featureflags.go:1722-1820 | A conclusive disabled flag stays disabled however its unresolved conditions come out, early exit or not. |
| `FlagFolding.ConclusiveEnabledIsSound` | featureflags.go:1722-1820 | Without early exit a conclusive enabled flag stays enabled. |
| `FlagFolding.ConditionIsSound` | featureflags.go:1847-1936 | A condition's conclusive result is its result under any truth values for the unresolved leaves. |
| `FlagFolding.FlagIsSound` | featureflags.go:1722-1820 | The two soundness results for a flag given as trees of leaves. |
| `Folding.CanBeIff` | feature_flag_property_group.go:36-115 | A predicate computed from the tree of a group says exactly which truth values the group can come to under choices for its unresolved leaves. |
| `Folding.InconclusiveIsOpen` | feature_flag_property_group.go:36-115 | A group reported as inconclusive can come out either way. |
| `FlagFolding.DecidedFlagIsSettled` | featureflags.go:1722-1820 | A flag all of whose conditions are decided gets the two-valued answer, early exit included. |
| `FlagFolding.UnsureFlagMeans` | featureflags.go:1722-1820 | Without early exit the first matching condition gives the value whatever is unresolved around it; with none matching, the flag is off exactly if nothing was unresolved, and otherwise inconclusive with a reason. |
| `FlagFolding.ServerReasonIsForemost` | featureflags.go:1770-1777 | A condition that requires the server ends the evaluation with a reason no less urgent than its own, those met before and that of the definition. |
| `Filters.ReportedMeansUnsupported` | featureflags.go:1938-2018 | A filter the load-time check reports is unresolved for every property map, as an unsupported definition. |
| `Filters.MissingContextMeansUsable` | featureflags.go:1938-1947 | A missing-context answer means the load-time check passes the filter. |
| `Filters.AbsentPropertyTellsWhich` | featureflags.go:1938-1997 | With no properties at all, the answer blames the definition exactly when the load-time check does, and the context otherwise. |
| `Operators.ExactListMeans` | featureflags.go:2644-2662 | A list matches exactly if some unambiguous item has the value's text, and decides against it exactly if all items are unambiguous and differ, in any order. |
| `Operators.TextImplies` | featureflags.go:2020-2102 | A value that starts or ends with the text contains it. |
| `Operators.VersionsAreOrdered` | featureflags.go:2384-2404 | Version comparison is a total order. |
| `Operators.RangesAreIntervals` | featureflags.go:2491-2521 | Tilde and caret ranges hold exactly up to the next minor and the next leftmost nonzero part. |
| `Definitions.ChainErrorMeans` | featureflags.go:768-790 | A dependency chain passes exactly if every member is loaded and every active one needs no other aggregation. |
| `CohortScan.ScanIsExact` | featureflags.go:1142-1177 | In one aggregation context the scan, which ends on cyclic cohorts too, answers true exactly if an unusable filter is reachable. |
| `CohortScan.FlagScanIsExact` | featureflags.go:1118-1140 | For a whole flag it answers true exactly if some condition reaches an unusable filter without entering a cohort an earlier condition enters. |
| `CohortScan.OneAggregationScanIsExact` | featureflags.go:1118-1140 | When a flag's conditions share one aggregation the scan of the flag is exact. |
| `CohortScan.MixedAggregationsExample` | featureflags.go:1128-1138 | With two aggregations the shared visited set hides an unusable filter. |
| `CohortScan.IsUnsupportedProperty` | featureflags.go:1142-1163 | The method computes the scan of one filter and updates the visited set as specified. |
| `CohortScan.IsUnsupportedPropertyGroup` | featureflags.go:1165-1177 | Recursion through nested groups is the scan of the group's filters in order. |
| `CohortScan.DefinitionUnresolvedReason` | featureflags.go:1118-1140 | The method returns the reason known from the definition alone. |
| `Bucketing.VariantsTile` | featureflags.go:1638-1660 | With non-negative percentages a hash below their sum selects exactly one variant, the one in whose share it lies; any other leaves the flag plainly true. |
| `Bucketing.VariantLookupTable` | featureflags.go:1673-1687 | The loop builds the specified table of bands. |
| `Bucketing.BandAt` | featureflags.go:1673-1687 | Band i runs from the percentages before variant i to those up to it. |
| `Bucketing.GetMatchingVariant` | featureflags.go:1638-1660 | The loop returns the first band's variant that covers the hash. |
| `Bucketing.RolloutOnlyGrows` | featureflags.go:3003-3006 | Raising a rollout removes nobody; 100 includes everybody, a negative percentage nobody. |
| `Bucketing.HoldoutOnlyGrows` | featureflags.go:3055-3075 | Raising a holdout removes nobody; 100 holds everybody without hashing; percentages are clamped. |
| `Bucketing.HoldoutIgnoresTheFlag` | featureflags.go:3039-3044 | Membership in a partial holdout depends only on bucketing value and clamped percentage. |
| `Bucketing.NeedsDeviceMeans` | featureflags.go:3055-3075 | A holdout is undecided exactly for a device-bucketed person flag with a partial holdout and no device id. |
| `DependencyCache.OneContextPerFlag` | featureflags.go:656-743 | In one call any two evaluations of the same dependency are for the same distinct id, device id and properties, so a cache keyed by flag key is sound. |
| `DependencyCache.FlagGrows` | featureflags.go:763-790 | A dependency evaluated in a context evaluates its own dependencies in that context, and overwrites no cached result. |
| `DependencyCache.DependencyKeepsContext` | featureflags.go:1865-1874 | A dependency that passes the chain check keeps its caller's aggregation and context in every condition. |
| `Placement.ConditionAndFlagAgree` | featureflags.go:1570-1597 | A group named by a condition and by a flag is evaluated for the same key and properties when the group's properties were passed. |
| `Placement.WithoutGroupProperties` | featureflags.go:1570-1597 | When they were not, the flag goes on with the group key as its only property, or fails on a key that is no text or number. |
| `Placement.ValueIsDeclared` | featureflags.go:1778-1787 | A match gives true or one of the flag's declared variants, and the condition's override if that is declared. |
| `Unrolling.FlagAnswerIsSound` | featureflags.go:1689-1821 | The evaluator's conclusive answer for a flag is sound: disabled stays disabled, and enabled stays enabled without early exit, for any truth values of the unresolved leaves of its conditions. |
| `Unrolling.ConditionAnswerIsSound` | featureflags.go:1847-1936 | Its conclusive result for a condition is the result under any such values. |
| `Unrolling.GroupAnswerIsSound` | feature_flag_property_group.go:14-115 | Its conclusive answer for a cohort group is the group's truth under any such values. |
| `Unrolling.GroupFolds` | feature_flag_property_group.go:3-115 | What the evaluator makes of a group, cohorts expanded, is the verdict on the tree of its entries. |
| `Unrolling.ConditionsFold` | featureflags.go:1722-1820 | What it makes of a flag is the folding of its conditions' trees. |
| `EarlyExit.EarlyExitSoundIff` | featureflags.go:1788-1811 | With early exit a conclusive enabled flag is enabled under every choice of truth values for the unresolved leaves if and only if every unresolved condition before the match has a rollout that includes the identity, or filters that cannot all be true. |
| `EarlyExit.EarlyExitAnswerIff` | featureflags.go:1689-1821 | The same if-and-only-if of the evaluator's own answer, cohorts and cache included. |
| `EarlyExit.IncludedIsSound` | featureflags.go:1788-1811 | So early exit is sound for an identity that the rollouts of all conditions but the last include, as absent rollouts do. |
| `EarlyExit.EarlyExitUnsoundExample` | featureflags.go:1788-1811 | A flag, a world and two calls: the flag is enabled while a property is unknown, and disabled once it is passed, whatever its value. |
| `MoreProperties.MorePropertiesAgree` | featureflags.go:1541-1618 | Two calls for the same identities, one passing more properties: if both are answered, both say enabled or both disabled, through cache, cohorts, groups and dependencies, when early exit is off in the flag and those ranked below and their dependencies ask only whether a flag is on or off. |
| `MoreProperties.CallIsTrue` | featureflags.go:1541-1618 | Any answer agrees with a two-valued evaluation that has no cache, sees all the properties of a call that passes at least as many, and takes for false what is not known. |
| `MoreProperties.DependencyIsTrue` | featureflags.go:656-743 | A dependency decided in any cache that agrees with that evaluation is decided as it says, and leaves such a cache. |
| `MoreProperties.VariantDependencyExample` | featureflags.go:793-816 | A flag that depends on another's variant, and two calls: it is enabled while a property is unknown, and disabled once it is passed, whatever its value. |
| `CacheTransparency.CacheIsInvisible` | featureflags.go:681-742 | A call gets the answer it would get with every dependency evaluated afresh, whatever is left unresolved on the way, if the filters of its flag and of the flags and cohorts ranked below it are steady; ranks are any that fall along references, so what the call cannot reach may be ranked above. |
| `CacheTransparency.ResolvedCallIsPlain` | featureflags.go:681-742 | So does a call that leaves no dependency unresolved, if each chain names its own flag. |
| `FilterOrder.SteadyIff` | featureflags.go:681-742 | Steadiness is exact: a usable dependency filter comes to the same with every truthful cache as without one if and only if no unresolved member of its chain can be passed over to another result. Nothing is asked of the filter itself; the filters of the flags and cohorts ranked below it are steady. |
| `SteadyDefinitions.DefinitionsSteadyIff` | featureflags.go:681-742 | For a whole set of definitions, with no hypothesis on any filter: the filters loaded below a rank are all steady if and only if no truthful cache affects any dependency among them. |
| `FilterOrder.FilterOrderThroughCache` | featureflags.go:1872-1924 | Reordering a condition's filters changes neither whether it matches nor the reported reason when they are steady, and those of the flags and cohorts ranked below are, whatever the cache holds, absent unclassified errors. |
| `OrderExactness.UndisturbedOrder` | featureflags.go:1872-1924 | The same under the wider condition that each of the condition's filters is undisturbed: steady, or unsteady only between two chain errors a condition reports alike. The filters ranked below are steady. |
| `OrderExactness.OrderIff` | featureflags.go:1872-1924 | That condition is exact: whether a usable dependency, whose chain holds its own flag, comes first or last among ordinary filters never shows, whatever value it expects and whatever is cached, if and only if it is undisturbed. Nothing is asked of the filter itself; the filters of the flags and cohorts ranked below it are steady. |
| `FilterOrder.ResolvedOrderIsPlain` | featureflags.go:1872-1924 | The same when neither order leaves a dependency unresolved. |
| `FilterOrder.OrderShowsWhenHidden` | featureflags.go:680-742 | Conversely the order shows whenever the first active member of a chain, one with experience continuity for instance, is unresolved and the filter's own flag is not, loaded or not: with a filter on that member first the condition does not match, with it second it is unresolved. The filters ranked below are steady. |
| `SecureChains.SecureCacheIsInvisible` | featureflags.go:681-742 | A condition on the definitions alone suffices: each chain ends with its filter's flag and no member before can be left unresolved, as in every chain of one. Then the cache never shows in any call. |
| `SecureChains.SecureFilterOrder` | featureflags.go:1872-1924 | Nor, under that condition, does the order of a condition's filters. |
| `FilterOrder.OrderShowsThroughCache` | featureflags.go:680-684 | Two definitions that differ only in the order of a loaded flag's two dependency filters, and anyone's call: with one the answer is off, with the other an error, because a cached nil is passed over. |
| `FlagOrder.ResultOrderIff` | featureflags.go:1872-1924 | Absent unclassified errors, every order of a condition's outcomes gives the same result, kind of error included, if and only if one of them is decided false or they do not hold both an inconclusive and a server-required one. |
| `FlagOrder.FlagOrderIsInvisible` | featureflags.go:1541-1618 | Reordering the filters inside all conditions of a flag leaves the answer of the whole call as it is, when the filters of the flag and of what is ranked below are steady and each condition's outcomes, taken afresh, meet that condition. |
| `FlagOrder.OrderShowsInFlagExample` | featureflags.go:1884-1924 | Two orders of one condition's filters, no dependency among them, and two answers to anyone's call: enabled by a later condition, and an error that requires the server. |
| `FlagOrder.DefinitionReasonAlike` | featureflags.go:1118-1140 | The reason the load-time scan gives for a flag does not depend on the order of the filters inside its conditions. |
| `Acyclic.RankedIffAcyclic` | featureflags.go:686-721 | The ranks the evaluator's termination measure uses exist if and only if cohort references and dependency chains form no cycle. |
| `Acyclic.HeightFalls` | feature_flag_property_group.go:3-12 | Without cycles the number of nodes reachable falls along every reference. |
| `LocalEvaluation.EvaluateFlagDependency` | featureflags.go:656-743 | The loop over the chain and the final comparison do what the evaluator specifies, cache included. |
| `LocalEvaluation.EvaluateMember` | featureflags.go:686-721 | One chain member: inactive, continuity, evaluated, server-required or unresolved, each cached as specified. |
| `LocalEvaluation.MatchCohort` | feature_flag_property_group.go:3-12 | A missing cohort requires the server; a known one is its group. |
| `LocalEvaluation.MatchPropertyGroup` | feature_flag_property_group.go:14-32 | An empty group matches. |
| `LocalEvaluation.MatchParsedPropertyGroup` | feature_flag_property_group.go:36-115 | The loop over entries, with its negation, reasons and early returns. |
| `LocalEvaluation.MatchConditionFilters` | featureflags.go:1875-1924 | The loop over a condition's filters. |
| `LocalEvaluation.IsConditionMatch` | featureflags.go:1847-1936 | The condition's result, with the context its dependencies get. |
| `LocalEvaluation.MatchReleaseConditions` | featureflags.go:1722-1820 | The loop over a flag's conditions. |
| `LocalEvaluation.MatchFeatureFlagProperties` | featureflags.go:1689-1821 | Holdouts first, then the conditions. |
| `LocalEvaluation.Compute` | featureflags.go:1541-1618 | A whole call with a cache of its own. |
| `Poller.PollerIsCoherent` | featureflags.go:892-1034 | Over all sequences of polls with an honest server a stored tag names the stored payload, index and variant tables are derived from it, and nil is never published. |
| `Poller.FetchKeeps` | featureflags.go:1202-1294 | One fetch keeps that. |
| `Poller.StartsSound` | featureflags.go:842-860 | A new poller is coherent. |
| `Poller.NilPublishedExample` | featureflags.go:1228-1252 | A quota answer and then an unsolicited 304 that is to be published make the poller publish nil. |
| `Poller.PublishesNilIff` | featureflags.go:1228-1252 | Over any run of polls with any answers at all, nil is ever published if and only if some 304 that is to be published meets a state cleared by a quota answer. |
| `Poller.IndexHolds` | featureflags.go:3196-3217 | The index holds the last flag of each key, with the table of its own variants. |
| `Poller.IndexHoldsNoMore` | featureflags.go:3211-3217 | It holds no other key. |
| `Poller.FeatureFlagsPoller.FetchFlagDefinitions` | featureflags.go:1202-1294 | The method's effect on state and publications for every kind of response. |
| `Poller.FeatureFlagsPoller.FetchNewFeatureFlags` | featureflags.go:892-930 | The choice between cache and fetch, and the shutdown checks. |
| `Poller.FeatureFlagsPoller.LoadFlagDefinitionsFromCache` | featureflags.go:940-970 | Unusable cached definitions are a miss; usable ones are applied without a tag. |
| `Poller.FeatureFlagsPoller.ApplyFlagDefinitions` | featureflags.go:1009-1034 | The state stored is the one derived from the payload. |
| `Poller.FeatureFlagsPoller.BuildFlagsByKey` | featureflags.go:3211-3217 | The loop builds the index. |
| `Poller.FeatureFlagsPoller.PreDecode` | featureflags.go:3196-3208 | The loop gives each flag its variant table. |
| `Catalog.CurrentIsFresh` | posthogmcpsdk/tools.go:142-173 | In every reachable state each entry of the current generation came from a listing that took its generation after the latest invalidation. |
| `Catalog.InvalidatedIsFrozen` | posthogmcpsdk/tools.go:154-173 | The map of an invalidated generation never changes again. |
| `Catalog.OneWalkPerGeneration` | posthogmcpsdk/tools.go:215-247 | At most one walk lists into a generation at a time. |
| `Catalog.ClosedExactlyOnce` | posthogmcpsdk/tools.go:252-267 | A walk's channel is open while it has an owner and afterwards has been closed exactly once. |
| `Catalog.AnswersAreFresh` | posthogmcpsdk/tools.go:205-247 | What a lookup answers came from a listing newer than every invalidation before the lookup looked. |
| `Catalog.StepKeeps` | posthogmcpsdk/tools.go:142-292 | Every critical section of every goroutine keeps the catalog's invariant. |
| `ToolCatalog.ToolCatalog.Invalidate` | posthogmcpsdk/tools.go:142-146 | A fresh generation that knows nothing becomes current. |
| `ToolCatalog.ToolCatalog.Advertise` | posthogmcpsdk/tools.go:157-173 | A page is remembered in its generation, unless that was invalidated. |
| `ToolCatalog.ToolCatalog.LookUp` | posthogmcpsdk/tools.go:215-235 | Answered if trusted, remembered as missing or without a session; else leading a new walk or waiting for the one that runs. |
| `ToolCatalog.ToolCatalog.ListPages` | posthogmcpsdk/tools.go:269-291 | At most 100 pages, up to the last or the first failure, learned in order. |
| `ToolCatalog.ToolCatalog.Walk` | posthogmcpsdk/tools.go:252-292 | The walk ends with its channel closed, the generation free, and misses remembered exactly if it finished. |
| `Truncation.TruncationComposes` | posthogmcp/truncate.go:16-64 | Truncating at a and then at b is truncating at the smaller, for every value, over-wide maps with a key "..." included. |
| `Truncation.TruncatedIsBounded` | posthogmcp/truncate.go:16-64 | A truncated value keeps the depth and breadth bounds, and its strings are UTF-8 of at most 32768 bytes. |
| `Truncation.BoundedIsKept` | posthogmcp/truncate.go:16-64 | A value already within the bounds is left as it is. |
| `Truncation.TruncatedIsWellFormed` | posthogmcp/truncate.go:48-60 | Truncated maps keep sorted, distinct keys, the mark taking the place of a field of its key. |
| `Truncation.WideListKeepsMost` | posthogmcp/truncate.go:21-37 | An over-wide list keeps its first elements, each truncated, with the mark in the last place. |
| `Truncation.WideMapKeepsMost` | posthogmcp/truncate.go:38-60 | An over-wide map is marked under "..." and keeps the truncated fields of its first keys, all but one of that key. |
| `Truncation.TruncateUTF8` | posthogmcp/truncate.go:66-80 | The loop that walks the cut back computes the specified truncation. |
| `Truncation.TruncatedFits` | posthogmcp/truncate.go:66-80 | The result is valid UTF-8 within the limit, for every input and limit. |
| `Truncation.TruncatedIsMaximal` | posthogmcp/truncate.go:71-79 | No longer cut at a character boundary would leave room for the suffix. |
| `Truncation.FittingIsKept` | posthogmcp/truncate.go:66-70 | A valid string within the limit is kept. |
| `Utf8.ToValidIsValid` | posthogmcp/truncate.go:67 | Sanitizing any bytes gives valid UTF-8. |
| `Utf8.CutIsValid` | posthogmcp/truncate.go:75-79 | A prefix cut at a character start is valid. |
| `EventPruning.FirstFitMeans` | posthogmcp/exception.go:40-53 | The event built is the richest that fits, every richer stage having been measured as too large; too large is reported exactly if all are. |
| `EventPruning.StageCutsOnce` | posthogmcp/exception.go:55-83 | Response and parameters at any stage are the originals truncated once at its depth, or dropped. |
| `EventPruning.LaterStageCutsFurther` | posthogmcp/exception.go:30-72 | A later stage is an earlier one truncated further. |
| `EventPruning.StagesOnlyTakeAway` | posthogmcp/exception.go:12-38 | Later stages are no deeper and drop whatever earlier ones dropped. |
| `EventPruning.OthersAreKept` | posthogmcp/exception.go:55-72 | No other property depends on the stage, custom ones apart. |
| `EventPruning.PropertyMap.LimitProperty` | posthogmcp/exception.go:74-83 | The in-place edit of one property. |
| `EventPruning.PropertyMap.ApplyIdentity` | posthogmcp/event.go:349-361 | The identity properties written last. |
| `EventPruning.BuildAt` | posthogmcp/exception.go:55-72 | The event of one stage. |
| `EventPruning.BuildCapture` | posthogmcp/exception.go:40-53 | The loop over the stages. |
| `FormCodec.FieldsRoundTrip` | posthogmcp/urllib.go:148-173 | Encoding and parsing gives the same fields if and only if they are valid UTF-8 and no more than allowed. |
| `FormCodec.ParseOfEncode` | posthogmcp/urllib.go:148-173 | Parsing encoded fields repairs each of them, or fails exactly if there are too many. |
| `FormCodec.UnquoteOfQuote` | posthogmcp/urllib.go:175-218 | Quoting and unquoting any bytes is repairing them. |
| `FormCodec.RepairedIffInvalid` | posthogmcp/urllib.go:248-259 | Repair leaves text alone exactly if it is valid UTF-8. |
| `FormCodec.RepairIsValid` | posthogmcp/urllib.go:248-294 | Repaired text is valid UTF-8. |
| `FormCodec.QuotePlus` | posthogmcp/urllib.go:175-192 | The loop computes the specified quoting. |
| `FormCodec.PercentDecode` | posthogmcp/urllib.go:220-231 | The loop decodes well-formed escapes and leaves others literal. |
| `FormCodec.InvalidUTF8PrefixLength` | posthogmcp/urllib.go:263-294 | The loop finds the maximal ill-formed subpart. |
| `FormCodec.WriteUTF8Replacing` | posthogmcp/urllib.go:248-259 | The loop writes the repaired text. |
| `FormCodec.UnquotePlus` | posthogmcp/urllib.go:197-218 | The loop over ASCII and other segments. |
| `FormCodec.ParseQSL` | posthogmcp/urllib.go:149-165 | The field limit, then the pairs. |
| `FormCodec.DecodePairs` | posthogmcp/urllib.go:157-163 | The loop over the pairs, passing over empty ones. |
| `UrlSplit.UrlRoundTrip` | posthogmcp/urllib.go:37-142 | Printing and splitting a URL gives it back if and only if splitting can produce it. |
| `UrlSplit.ProducedIffWellSplit` | posthogmcp/urllib.go:37-56 | The URLs splitting can produce are those whose parts satisfy a condition that can be read off them. |
| `UrlSplit.PrintedSplits` | posthogmcp/urllib.go:116-142 | Every such URL survives, in all cases of scheme, network location and double-slash path. |
| `UrlSplit.SplitIsWellSplit` | posthogmcp/urllib.go:37-56 | What splitting yields satisfies the condition. |
| `UrlSplit.Urlunsplit` | posthogmcp/urllib.go:116-142 | Writing part by part computes the specified text. |

## Left out

- HTTP, headers, compression, JSON encoding and decoding: an upload, a listing or a poll is a nondeterministic outcome, a decoder an arbitrary function.
- Regular expressions, dates, version and number parsing, and text conversion of values: arbitrary functions of the filters' model, so only what the branches do with their results is proved.
- SHA-1: an arbitrary function into 60 bits; that the hash reaches 1 is allowed for.
- Floating point: percentages, hashes and ordered properties are exact reals, so rounding in the variant table's running sum is not modelled.
- `MoreProperties.MorePropertiesAgree`: asks of each chain that it holds its own flag, and of variants that their keys are not empty; a dependency on a variant is excluded because the result is false of it.
- Liveness: flush and close are stated for the case that they return nil.
- E-mail requests drained at close: close may or may not succeed in draining them; the `emails` files are not part of this model.
- The loop's batch variables are reset when sendBatch registers the batch, not when it returns; they are local to the loop and nothing else reads them in between.
- The steps of a capture-v1 worker in the pipeline let every event of a 2xx answer come out any way; which callback each gets is proved of the delivery of one batch (`CaptureV1`). The code and description in the body of an error response are not part of this model.
- A panic of a capture-v1 worker after an answer that settled events: its recovery would call back the whole batch, those events a second time.
- A panic in a user callback: the worker's recovery would call back the whole batch a second time.
- The evaluation cache that is nil when a flag has no dependency or cohort filter: nothing reads it then, so the model always has one.
- `OrderExactness.OrderIff`: for a dependency whose chain holds its own flag; one without it is malformed server data, for which steadiness is exact (`FilterOrder.SteadyIff`) but the order of filters is only covered one way.
- `Truncation.TruncatedIsBounded`: map keys are neither cut nor sanitized by the code, so the byte bounds are about values.
- `UrlSplit.UrlRoundTrip`: bracketed hosts and characters that normalize to delimiters are judged by an arbitrary predicate of the network location.
- Mixed cyclic definitions: the evaluator is modelled on definitions with ranks, which are those without cycles; on others the original does not return.
- Two goroutines in one critical section: the mutexes are taken to work.
- Payload decoding, flag-called events, remote flag requests, error tracking, redaction and the tool middleware: easy members or glue.
