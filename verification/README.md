# A verified model of the stream rule engine's shard

This project models one shard of the in-memory, event-sourced rule engine
(`service/engine/core` and the rule language it evaluates) in Dafny and proves
what its design promises about it. A shard takes the events of its members one
at a time. For each event it

1. folds the event into the time buckets of the member's behaviour, late or not;
2. if the event is behind the watermark, hands it to the late sink and stops;
3. otherwise moves the watermark, evaluates the rules against bucket aggregates,
   sweeps expired pattern progresses, advances and opens pattern progresses, and
   drains the heap of deadlines of "did NOT happen" states.

Beside it, a background goroutine writes copy-on-write snapshots, and a consumer
loop restores from the last file and replays the log.

The model has three layers.

- **Values.** `Buckets`, `Patterns` and `Shards` describe a shard as a value and
  one event as a function `Next`/`Out` on it. A Go map that is ranged over is a
  map here, so nothing stated of these functions depends on an iteration order.
  The theorems about whole runs are in `Histories` and `Pruning` (aggregates),
  `Invariants`, `Following`, `Witnesses`, `WaitingExits`, `NegativeExits`, `Reopenings`,
  `Forgetting`, `SweepTransparency` and `SweepVisibility` (patterns); `Scenarios` builds runs that
  bring a pattern to a chosen state; `Limits` and `RuleLimits` hold concrete runs on
  which a promise fails.
- **Objects.** `Objects`, `ShardState`, `DeadlineHeap` and `Engine` are the
  classes the engine updates in place: buckets, behaviour aggregates, progresses,
  members, key groups, the shard state with its epochs, the heap, and the core.
  Every loop over a map picks its next key arbitrarily. Each method is proved
  against the value functions, while a snapshot in flight keeps its value.
- **Protocol.** `Recovery` is the crash and restart protocol as a machine over an
  ordered log, `Schedules` says which actions a run takes as a function of its
  messages and ticks, and `Consumers` holds the snapshotter and the two `Run` loops,
  proved to take exactly those actions.

`RuleLaws`, `Answers` and `Carried` say what the vocabulary shared by all of this
means, without naming the functions that compute it: the truth tables of the rule
language and the lengths of windows, what the five aggregations answer of a member's
events, and what a state reads and a match carries. `Patterns` has the like for sweeps,
bindings, shapes and progress IDs.

`Rules` and `Compiler` are the tree-walking interpreter and the closure compiler,
`AggregateKeys` and `RuleFiring` the cache of preloaded aggregates, `KeyGroups`
the assignment of members to shards, `Basics` and `Events` shared vocabulary.

Of aggregate keys that print alike only the first is collected; `Stand` is the key
that answers for another, `AsCached` the context in which each aggregate has the
value of the key that answers for it, `Holding` the rules true in a context. Where
no two keys print alike, each stands for itself and this is evaluation on demand.

Conditions used throughout: the same event ID means the same event (`Identified`),
`allowedLateness` is not negative, and the patterns are `Proper`: accepted by
AddPattern, no negative wait, IDs distinct and without `|`. `OnTime` and `Late`
always refer to the watermark at the moment an event is processed.

`dafny verify dfyconfig.toml` checks the whole project.

## Model

| member | source | states |
|---|---|---|
| Buckets.BucketsAreExact | service/engine/core/aggregation.go:29-83 | For every sequence of events of a behaviour, in any order and with any redelivery, each bucket at or after align(newest - maxWindow) holds exactly the count, sums, maxima, minima and IDs of the distinct events in it, and exists iff there are any |
| Buckets.AddKeepsExact | service/engine/core/aggregation.go:48-71 | Adding an unseen event to an exact bucket leaves the exact bucket of one event more, for every field |
| Buckets.OrderDoesNotMatter | service/engine/core/aggregation.go:29-83 | Two sequences over the same set of events have the same horizon and agree on every bucket from there on |
| Buckets.QueryIsScan | service/engine/core/aggregation.go:116-174 | COUNT, SUM, AVG, MAX and MIN over a window inside the retention equal the same function of the distinct events whose bucket lies in the window |
| Answers.AnswersMean | service/engine/core/aggregation.go:116-174 | On a retained window of any run COUNT is the number of the member's distinct events in it, SUM the sum of their numbers, AVG times COUNT is SUM, MAX a number none of theirs exceeds and MIN one none is below, 0 where there are none |
| Answers.SumsAdd | service/engine/core/aggregation.go:61-62 | That sum is 0 of nothing and grows, by one more event, by exactly the number the event has in the field, if it has one |
| Answers.KindIsRead | service/engine/core/aggregation.go:158-174 | The aggregation may be written in any letter case, and any other word answers 0 |
| Answers.FieldParses | service/engine/core/aggregation.go:100-110 | behaviour:kind and behaviour:kind:field are read as their parts, the field keeping further colons |
| Answers.BucketIsAMinute | service/engine/core/aggregation.go:18-20 | A bucket start is a whole minute and the event lies in the 60 s from there |
| Buckets.NewestWindowIsRetained | service/engine/core/aggregation.go:76-83 | When now is the newest event time, a window no longer than maxWindow starts inside the retention |
| Pruning.BucketIsExactIff | service/engine/core/aggregation.go:76-83 | A bucket start can be relied on for all event sequences up to a newest time iff it is at or after align(newest - maxWindow), or no bucket can start there |
| Pruning.QueryIsScanIff | service/engine/core/aggregation.go:116-174 | For every aggregation kind and field: a window query answers as a scan on all such sequences iff the window starts at or after align(newest - maxWindow) or is empty |
| Pruning.KeyIsAnsweredIff | service/engine/core/aggregation.go:116-174 | Over runs: an aggregate read on an on-time event is the scan of the member's events in every run iff its window starts at or after the horizon of its behaviour or is empty |
| Pruning.WindowlessIsAnsweredIff | service/engine/core/aggregation.go:116-174 | For an aggregate without a window that is so iff newest - maxWindow lies in the first minute after the epoch or before |
| Objects.MemberState.UpdateAggregations | service/engine/core/aggregation.go:29-72 | The in-place bucket update is the fold on values, touches no other behaviour and shares no object |
| Objects.MemberState.Aggregate | service/engine/core/aggregation.go:116-174 | The loop over the buckets, in any order, computes the reference aggregate of the key |
| Histories.RunFolds | service/engine/core/core.go:99-108 | After any run, events of all members and behaviours mixed and late ones included, a member's buckets are the fold of exactly its own events of that behaviour |
| Histories.RunBucketsAreExact | service/engine/core/core.go:103-108 | So every retained bucket of every member of a run is the bucket of that member's distinct events |
| Histories.RunsAgreeOnBuckets | service/engine/core/core.go:103-108 | Two runs over the same events in different orders agree on every retained bucket of every member |
| Histories.AggregateIsScan | service/engine/core/aggregation.go:116-174 | In the state a run reaches, each aggregate whose window is retained equals a plain scan of the member's events |
| Histories.FittingWindowIsRetained | service/engine/core/aggregation.go:76-83 | A window within maxWindow is retained at any time not before the newest event of its behaviour |
| Histories.MatchedRulesAreTrueOfScans | service/engine/core/eval.go:24-50 | Whenever the windows the rules read are retained at an event, the rules true of the aggregates computed on demand are exactly those true of plain scans of the member's events |
| Histories.WindowsAreRetained | service/base/rule/usecase/strategy.go:122-151 | With the retention NewCore derives from the compiled rules (24 hours when none has a window), every window the rules read is retained at a time not before the newest event of the behaviours read |
| Histories.RetentionIsLongest | service/engine/core/core.go:72-88 | The retention is the longest window of the collected aggregates, 24 hours when none has one |
| Histories.LastSeenIsNewest | service/engine/core/core.go:109 | After any run a member was last seen at its newest event, late ones and redeliveries included |
| Answers.CountRuleIsTrueIff | service/engine/core/core.go:92-108 | The fifth failure fires the rule: "at least n of a behaviour" is true on an event iff the window then holds n distinct events, the triggering one included |
| Answers.RuleReads | service/engine/core/eval.go:55-63 | A plain field of a rule is the event's own, behavior and member_id being the event's whatever its fields say; an aggregate is the number computed; no variable is bound |
| Answers.HoldingMeans | service/engine/core/eval.go:40-49 | A rule is reported iff its tree is true without an error, under its own ID and name |
| Answers.HoldingInOrder | service/engine/core/eval.go:40-49 | Reports come in the order of the rules |
| RuleLimits.OlderEventMissesARule | service/engine/core/aggregation.go:76-83 | Input: trades at 30 s, 361 s and then, on time, 358 s, with window and retention of 5 minutes; the rule is true of the events and does not fire |
| RuleLimits.WindowlessKeyMissesARule | service/base/rule/usecase/aggregate.go:27-35 | Input: two trades 25 hours apart and a rule that counts without a window; the longest window is 0, so 24 hours are kept, and the true rule does not fire |
| Shards.WatermarkClosedForm | service/engine/core/watermark.go:17-29 | After any run the watermark is max(0, event time - lateness) over all events, late ones included |
| Shards.ClosedFormIsMax | service/engine/core/watermark.go:17-29 | That closed form is an upper bound which some event reaches |
| Shards.OnTimeIff | service/engine/core/watermark.go:17-29 | An event is on time iff it is not before the epoch and no earlier event, late or not, is more than the lateness ahead of it |
| Engine.DefaultsAre | service/engine/core/core.go:11-17 | Unless configured the slack is 5 s and the retention 24 hours |
| Shards.WatermarkIgnoresOrder | service/engine/core/watermark.go:17-43 | Runs over the same set of events end at the same watermark |
| Witnesses.WatermarkNeverFalls | service/engine/core/watermark.go:24-29 | During a run the watermark never decreases |
| Invariants.RunsKeepInv | service/engine/core/core.go:137-147 | In every reachable state each progress is sound (current step = processed events < states, ID from its start event), each parked one sits on the negative state with deadline start + wait, not before the watermark, and has its heap entry |
| Invariants.QueueIsRedundant | service/engine/core/negative_queue.go:55-97 | Cores that differ only in stale heap entries report the same on every event and stay so related |
| Invariants.RebuildIsInvisible | service/engine/core/snapshot.go:109-124 | Replacing the heap by the one rebuilt from the progresses, anywhere in a run, is never noticed afterwards |
| Following.StepIsFollowed | service/engine/core/cep.go:94-257 | One event changes each progress of each member independently of all others: swept, advanced, started or drained as `Follow` says from that progress and the clock alone |
| Following.RunsAreFollowed | service/engine/core/cep.go:94-257 | After any run, at any timing and with events of all members mixed, the stored progress under an ID is the fold of `Follow` over the events with the closed-form clock, and absent exactly when that fold is |
| Following.ReportsAreFollowed | service/engine/core/negative_queue.go:55-97 | An ID is reported as completed, or for one deadline, exactly when its folded progress completes on the event or passes its deadline, with that match and deadline |
| Witnesses.PositiveMatchHasWitness | service/engine/core/cep.go:94-242 | Every completed pattern has on-time events of one member, in processing order and with distinct IDs, the i-th satisfying state i under the earlier bindings and inside its wait; the match carries exactly their bindings |
| Carried.CompletedCarries | service/engine/core/cep.go:206-222 | A completed match binds a variable iff some event of its chain has the field its state names for it, and then to the value of the last such event |
| Carried.ExpiredCarries | service/engine/core/negative_queue.go:85-95 | So does the match of a passed deadline |
| Patterns.BindingsMean | service/engine/core/cep.go:277-286 | A variable is bound iff the event has the field its source names, with or without "$event." in front, and then to its value |
| Carried.StateReads | service/engine/core/cep.go:261-274 | A condition sees the event's behaviour and member under their own names, else its fields, a missing one as nil; a variable is the earlier binding, and unbound on the right side its own text |
| Carried.ErrorsMeetNothing | service/engine/core/cep.go:261-274 | A condition that ends in an error, also one that reports true beside it, is never met |
| Carried.AccountIsCarried | service/engine/core/cep.go:206-222 | For all texts a and b: with state 0 binding acct to the account, a second event completes the pattern iff its account is the first one's, and the match carries it |
| WaitingExits.WaitingExitIsExact | service/engine/core/cep.go:169-257 | A waiting progress stays, is dropped, climbs or completes as guards on states and times before the event decide: past all waits, already processed, past this wait, condition met, last state; with exactly the stored result and match |
| WaitingExits.WaitingExitInRuns | service/engine/core/cep.go:169-257 | The same over every run whose events are identified by their IDs |
| WaitingExits.PassedAtOnceIff | service/engine/core/cep.go:233-239 | A deadline of a waiting progress is reported iff the event moves it onto its negative state with start + wait already behind the new watermark |
| Witnesses.NegativeMatchHasWitness | service/engine/core/negative_queue.go:55-97 | Every expired deadline has such a witness for all states but the negative one, is stamped with start + wait, is behind the new watermark, and no on-time event in the window satisfied the forbidden condition since it was parked, redeliveries of the events that built the progress not counted (cep.go skips those) |
| Witnesses.NegativeMatchIsFinal | service/engine/core/negative_queue.go:55-62 | Whatever is accepted on time after a negative match happened later than its deadline |
| Witnesses.InstantMatchesExact | service/engine/core/cep.go:114-140 | An on-time event reports exactly the single-state patterns it satisfies, in pattern order |
| NegativeExits.NegativeExitIsExact | service/engine/core/cep.go:169-257 | A parked progress remains, is swept, aborts or fires, exactly as decided by guards on the state before the event |
| NegativeExits.NegativeExitInRuns | service/engine/core/cep.go:169-257 | The same over every run whose events are identified by their IDs |
| NegativeExits.OwnEventReportsIff | service/engine/core/cep.go:98 | When its own member's event finds the deadline passed, the match is reported iff no state of the pattern waits or some state's wait reaches the new watermark |
| Patterns.SweepMeans | service/engine/core/cep.go:246-257 | A progress is swept iff some state waits and the clock is past the own wait of every state, or its pattern is gone |
| Patterns.MaxWaitIsReached | service/engine/core/cep.go:24-34 | maxDuration is 0 or the own wait of a state |
| Patterns.ShapeMeans | service/engine/core/cep.go:42-61 | An accepted shape has states, all but the last positive, and a negative last one follows another and waits |
| Patterns.ProgressIDTellsMember | service/engine/core/cep.go:87-89 | With bar-free pattern and member IDs a progress ID tells pattern, member and start event |
| Reopenings.ReopensIff | service/engine/core/cep.go:113-160 | A progress that is not stored is stored after an event iff the event is an on-time start of it, and then it starts from nothing |
| Reopenings.GoneUntilRestart | service/engine/core/cep.go:125-128 | Over a run, what is gone stays gone until its start event comes again on time |
| Reopenings.SecondReportNeedsRestart | service/engine/core/cep.go:87-89 | A progress ID reports twice in a run only with an on-time start event strictly in between; so at most once where that event does not recur |
| Reopenings.OneReportPerEvent | service/engine/core/negative_queue.go:55-97 | One event reports a progress once: as completed or for one deadline, never both |
| Forgetting.AbortIsForgottenIff | service/engine/core/cep.go:125-159 | After a forbidden event aborted a progress, some continuation makes the engine report the very same negative match iff the watermark is not past the progress's start event |
| Forgetting.MatchAfterAbortNeedsRestart | service/engine/core/cep.go:189-201 | A negative match preceded by an abort of its progress has an on-time start event in between; where none comes, no forbidden event precedes the match |
| Scenarios.Climb | service/engine/core/cep.go:94-242 | Completeness of matching: after any history without such a progress, events of one member satisfying the states of a pattern in turn, at any times that keep it alive (on time, inside each wait, not swept or passed), build exactly its progress, with or without the sweep |
| Scenarios.ChainCompletes | service/engine/core/cep.go:204-242 | And for a pattern without a negative state the event for the last state completes it |
| SweepTransparency.SweepIsInvisible | service/engine/core/cep.go:95-98 | If in every pattern of two or more states no state waits, or the last state is positive and waits, every event is answered as without the sweep, with the same aggregates, clock and heap |
| SweepVisibility.SweepIsSeen | service/engine/core/cep.go:246-257 | A pattern outside that condition whose states can be satisfied has a run on which the sweep changes an answer |
| SweepVisibility.SweepIsInvisibleIff | service/engine/core/cep.go:246-257 | So for satisfiable patterns the sweep is unobservable iff every pattern meets the condition |
| Limits.OwnEventLosesTheMatch | service/engine/core/cep.go:98 | Input: a member's own event passes the deadline; the due negative match is lost to the sweep |
| Limits.RedeliveredStartForgetsTheAbort | service/engine/core/cep.go:125-128 | Input: start, abort, start again, time passes; the engine reports that the forbidden event did not come |
| Limits.SweepLosesOpenEnded | service/engine/core/cep.go:24-34 | Input: a last state without a wait; the sweep drops a progress that would have completed |
| Limits.NeitherSweepIsUnseen | service/engine/core/cep.go:246-257 | Both input patterns lie outside the condition of SweepIsInvisibleIff, at every lateness |
| Compiler.Compile | service/base/rule/usecase/compile.go:13-26 | Accepts exactly the trees of known node types, one-child NOTs and supported operators, and the closure gives the interpreter's boolean and error in every context that ignores the window of a plain field |
| Compiler.CompileChildren | service/base/rule/usecase/compile.go:28-72 | The loop over the children succeeds iff every child is accepted, each closure meaning its child |
| Compiler.CompileCondition | service/base/rule/usecase/compile.go:91-230 | Resolvers and comparators chosen at compile time mean the interpreter's condition |
| RuleLaws.AndMeans | service/base/rule/usecase/rule.go:48-58 | AND is true iff every child is; otherwise the first child that is not true makes it false, or an error if it errs |
| RuleLaws.OrMeans | service/base/rule/usecase/rule.go:61-71 | OR is false iff every child is; otherwise the first child that is not false makes it true, or an error if it errs; without errors it is true iff some child is |
| RuleLaws.NotMeans | service/base/rule/usecase/rule.go:33-82 | NOT inverts its one child and passes its error on; any other number of children or type of node is an error |
| RuleLaws.DeMorgan | service/base/rule/usecase/rule.go:48-82 | NOT of AND is OR of NOTs and NOT of OR is AND of NOTs, for every tree and context, errors included |
| RuleLaws.OrderMeans | service/base/rule/usecase/rule.go:151-167 | >, <, >= and <= are true iff both sides are numbers in that order, and err iff one is not a number |
| RuleLaws.EqualityMeans | service/base/rule/usecase/rule.go:151-179 | = and == compare two numbers by value and all else by text, != is their negation, none ever errs |
| RuleLaws.MembershipMeans | service/base/rule/usecase/rule.go:181-192 | IN is true iff some item prints as the left side does, NOT_IN iff none does; both err iff the right side is no list |
| RuleLaws.OtherConditionsFail | service/base/rule/usecase/rule.go:85-120 | Any other operator, and a field that cannot be resolved, is an error |
| RuleLaws.AcceptedIffEvaluable | service/base/rule/usecase/compile.go:170-202 | The compiler rejects a condition iff its operator errs for every right side in every context |
| RuleLaws.LettersPair | service/base/rule/usecase/rule.go:98 | Operators, aggregations and units ignore case: the 26 letters are paired, every other character is kept |
| RuleLaws.CaseIsForgotten | service/base/rule/usecase/rule.go:98 | Upper and lower case of a text depend on the text only up to letter case |
| RuleLaws.ValuesPrint | service/base/rule/usecase/rule.go:115-119 | Text prints as itself, a missing value as <nil>, a list as its items with blanks between them in brackets |
| RuleLaws.UnitsAgree | service/base/rule/model/entity.go:29-43 | In any letter case a day lasts as 24 hours, an hour as 60 minutes, a minute 60 s; every other unit lasts as minutes |
| RuleLaws.WindowsAdd | service/base/rule/model/entity.go:29-43 | The length of a window is additive in its value |
| RuleFiring.AgreeingContexts | service/base/rule/usecase/rule.go:33-192 | Contexts that agree on plain fields, variables and the collected aggregates give a tree the same result |
| RuleFiring.CachedRuleFires | service/base/rule/usecase/preloaded_context.go:27-38 | A compiled rule on the preloaded cache fires iff the rule is true of the aggregates of the keys that answer for its own, whether or not keys collide |
| RuleFiring.SafeAnswers | service/base/rule/usecase/preloaded_context.go:27-38 | Where no two keys print alike, the rules that so hold are those true of aggregates computed on demand |
| RuleFiring.CompileRules | service/base/rule/usecase/strategy.go:122-151 | Fails iff some rule is not accepted; else every strategy implements its rule, and maxWindow is the longest window of the collected keys, reached by one of them, 0 if none is positive; without collisions it bounds every window the rules read |
| RuleFiring.ValidatedRulesAreSafe | service/base/rule/model/validate.go:41-66 | Validated aggregate fields, with units of which none is another behind digits, never share a cache entry |
| AggregateKeys.CacheKeyInjectiveIff | service/base/rule/model/entity.go:89-94 | Over fields none of which continues another with a bar, the cache key identifies an aggregate iff no unit is another behind digits |
| AggregateKeys.CacheKeyOfADay | service/base/rule/model/entity.go:89-94 | The texts under which the cache holds a 24-hour sum and a count without a window |
| AggregateKeys.CacheKeyInjectiveExactly | service/base/rule/model/entity.go:89-94 | With units free of bars the exact condition: no unit is another behind digits, and no field reads as another field with a window |
| AggregateKeys.UnvalidatedFieldsCollide | service/base/rule/model/entity.go:89-94 | A field that itself ends in a window, which validation refuses, would share the entry of a shorter field |
| Answers.FieldIsValidIff | service/base/rule/model/validate.go:41-66 | Validation lets a field through iff its kind is one of the five and what follows a second colon is empty or an identifier |
| RuleLimits.ValidatedKeysCollide | service/base/rule/model/entity.go:89-94 | Input that validation lets through: the field Trade:COUNT with 1 "5minutes" and with 15 "minutes" have one cache key, and last 1 and 15 minutes |
| RuleLimits.ClashKeepsTheFirst | service/base/rule/usecase/aggregate.go:10-35 | Of two rules with these keys only the first key is collected and answers for both, and the longest window is 1 minute |
| RuleLimits.CollidingUnitsMissARule | service/engine/core/eval.go:24-50 | So with trades at 30 s and 600 s the fifteen-minute rule is true of the events and does not fire |
| AggregateKeys.CollectAggregateKeys | service/base/rule/model/entity.go:97-119 | The walk collects, once per cache key, the aggregates of the conditions of the tree |
| AggregateKeys.CollectUniqueAggregateKeys | service/base/rule/usecase/aggregate.go:10-23 | The same over all strategies |
| AggregateKeys.MaxWindowFromKeys | service/base/rule/usecase/aggregate.go:27-35 | The longest window of the keys, 0 if none is positive |
| KeyGroups.ShardIsRange | service/engine/core/keygroup.go:33-35 | The key groups of a shard are one contiguous range |
| KeyGroups.ShardsAreBalanced | service/engine/core/keygroup.go:33-35 | Every shard index is in range and the ranges differ in size by at most one |
| KeyGroups.RescaleRefines | service/engine/core/keygroup.go:33-41 | Multiplying the shard count refines the assignment |
| KeyGroups.KeyGroupOf | service/engine/core/keygroup.go:26-28 | The group of a member is below 1024 and differs from its hash by a multiple of 1024 |
| DeadlineHeap.RootIsLeast | service/engine/core/negative_queue.go:24-36 | The first element of the heap has the least deadline |
| DeadlineHeap.Push | service/engine/core/negative_queue.go:29 | Pushing keeps the heap and adds one entry to its multiset |
| DeadlineHeap.Pop | service/engine/core/negative_queue.go:30-36 | Popping keeps the heap and takes exactly the least entry |
| Objects.MemberState.Of | service/engine/core/state.go:157-192 | A clone has the value of its original and shares no object with anything |
| ShardStates.ShardState.MemberForWrite | service/engine/core/state.go:64-88 | Gives a writable object for the member, creating or cloning it when needed; live state and frozen view keep their values, and nothing is cloned twice in one freeze |
| ShardStates.ShardState.FreezeState | service/engine/core/state.go:93-97 | From here on the frozen view has the value of the live state now |
| ShardStates.ShardState.UnfreezeState | service/engine/core/state.go:101-103 | Releases the view and changes no value |
| ShardStates.ShardState.Encode | service/engine/core/snapshot.go:54-70 | The encoded key groups are the values the frozen view holds |
| ShardStates.ShardState.Load | service/engine/core/snapshot.go:84-103 | The installed key groups have exactly the values decoded, as fresh objects |
| Engine.Core.constructor | service/engine/core/core.go:72-88 | A fresh core: empty state, zero watermark, retention 24 hours when the rule set has no window, default lateness |
| Engine.Core.AddPattern | service/engine/core/cep.go:42-72 | Accepts a pattern iff it is well shaped and its conditions compile, and then appends it |
| Engine.Core.SweepExpiredProgresses | service/engine/core/cep.go:246-257 | Deleting in place, in any order, leaves exactly the unswept progresses |
| Engine.Core.AdvanceProgress | service/engine/core/cep.go:169-242 | The in-place step of one progress is the outcome on values, deadline registered when parked |
| Engine.Core.ProcessCEP | service/engine/core/cep.go:94-164 | Sweep, advance and start loops, in any map order, leave the progresses and heap and report the matches of the value function |
| Engine.Core.DrainNegativeMatches | service/engine/core/negative_queue.go:55-97 | Pops exactly the passed deadlines, reports each live one once, in non-decreasing deadline order, deletes their progresses and nothing else |
| Engine.Core.EvaluateRules | service/engine/core/eval.go:24-50 | For every rule set: the matched rules, in rule order, are those true of the member's reference aggregates of the keys that answer for theirs |
| Engine.Core.ProcessEvent | service/engine/core/core.go:99-150 | One event is one step of the value machine whether or not a snapshot is in flight; matches are the machine's; rules are those that hold on the counted aggregates, for every rule set, and those true on demand where keys do not collide; a snapshot in flight keeps its value, and the late sink gets the event iff it is late, registered and not replayed |
| Engine.Core.BeginSnapshot | service/engine/core/snapshot.go:39-45 | Captures state, watermark and last number of one moment |
| Engine.Core.EncodeSnapshot | service/engine/core/snapshot.go:54-70 | Encodes what was frozen, however far the core has moved on |
| Engine.Core.TakeSnapshot | service/engine/core/snapshot.go:75-79 | Freeze, encode, release: stores the current state and leaves it unchanged |
| Engine.Core.Restore | service/engine/core/snapshot.go:84-103 | Members, watermark and last number become those of the snapshot, the heap the one rebuilt from them; a key group out of range is refused |
| Engine.Core.RebuildNegativeDeadlines | service/engine/core/snapshot.go:109-124 | Ranging over members and progresses in any order refills the heap with exactly the parked deadlines |
| Recovery.ResumesInStep | service/engine/core/consumer_nats.go:62-73 | Resuming at the number after the last applied record skips no event and repeats none |
| Recovery.SnapshotIsOK | service/engine/core/snapshot.go:39-45 | A snapshot of a process in step is the state, watermark and last number of one log prefix |
| Recovery.CarefulSchedulesRecover | service/engine/core/consumer.go:69-138 | Under every schedule of deliveries, snapshots, failed writes, crashes and restarts, process, snapshot in flight and file stay consistent with one uninterrupted run |
| Recovery.RecoveryIsTransparent | service/engine/core/consumer_nats.go:51-152 | Numbered from 1, a process that is up has the state of the uninterrupted run over the records before its position and reports on the next record what that run reports |
| Recovery.LifeKeepsConsistent | service/engine/core/consumer.go:69-138 | From any consistent state, any schedule leaves a consistent one, where number 0 cannot be mistaken |
| Recovery.ConsistentFileIsSafe | service/engine/core/consumer_kafka.go:68-82 | From a consistent file on, no schedule spoils it, whatever the log begins with |
| Recovery.LifeIsSafe | service/engine/core/consumer_kafka.go:68-82 | One life from any consistent stopped state, that delivers a record before it snapshots, stays consistent throughout, whatever the log begins with |
| Recovery.ConsistentIffCareful | service/engine/core/consumer_kafka.go:68-82 | A schedule keeps process, snapshot and file consistent at every moment iff each snapshot is taken after a decodable record was applied or where the log has no decodable record 0 |
| Recovery.KafkaRecoversIff | service/engine/core/consumer_kafka.go:68-82 | Numbered from 0, recovery is right under every schedule iff the log does not begin with a decodable record 0 |
| Recovery.EarlySnapshotLosesRecordZero | service/engine/core/consumer_kafka.go:77 | Input: a snapshot before the first record; the restarted process has passed record 0 without applying it |
| Schedules.BeginsWhenDue | service/engine/core/consumer.go:82-108 | A turn starts a snapshot iff the interval has passed since the last one and no write is in flight |
| Schedules.KafkaDeliversFirst | service/engine/core/consumer_kafka.go:113-165 | If no tick is due before a poll has asked for a record, and a clean stop with a final snapshot comes after one, every snapshot of the run has a delivery before it |
| Schedules.KafkaLifeIsSafe | service/engine/core/consumer_kafka.go:64-166 | A Kafka run leaves a consistent file if there was one before, or record 0 cannot be mistaken, or its polls are of that kind |
| Consumers.AsyncSnapshotter.Tick | service/engine/core/consumer.go:82-108 | Collects a finished write, then starts a snapshot iff none is in flight and the interval has passed; each is a step of the protocol |
| Consumers.AsyncSnapshotter.Write | service/engine/core/consumer.go:96-107 | The background write stores the frozen view as a whole or leaves the file |
| Consumers.AsyncSnapshotter.Drain | service/engine/core/consumer.go:112-138 | Waits for the write in flight, then stores the current state |
| Consumers.NatsRun | service/engine/core/consumer_nats.go:51-152 | One run is one life of the protocol: position = min(log, resume position + messages); the actions are exactly those of the messages and ticks (`NatsPlan`: each due tick begins a snapshot) and of the stop; the core is where those records lead, the late sink has exactly what `Diverted` says, a clean stop ends in a final snapshot; if the file was the image of one log prefix it still is |
| Consumers.KafkaRun | service/engine/core/consumer_kafka.go:64-166 | The same with offsets from 0 and a tick per poll (`KafkaPlan`), for every log: the file stays an image of one prefix if there was a file, or record 0 cannot be mistaken, or the polls bring a record before the first snapshot |
| Consumers.DivertedIff | service/engine/core/core.go:110-118 | An event is in the late sink iff it is that of a decodable record of the run, late when applied, with a sink registered and outside replay |
| Consumers.ReplayIsSilent | service/engine/core/consumer_nats.go:75-146 | Every record up to the target is applied with the sink silenced; after a decodable record at or past it none is, so at most one beyond the target |
| Consumers.BeginsInReplayIff | service/engine/core/consumer_nats.go:75-84 | With the number of some record as target, or one before all numbers for an empty log, a run begins in replay iff a record up to the target is still ahead of its resume position |
| Consumers.NothingOldIsDiverted | service/engine/core/consumer_nats.go:75-146 | Whatever file the run starts from, no record up to the target reaches the late sink |
| Consumers.BaseIsReference | service/engine/core/consumer_nats.go:61-73 | Resuming from a consistent file puts the run in step with the uninterrupted one |
| Consumers.DivertsIsReference | service/engine/core/core.go:110-118 | Such a run diverts what the uninterrupted run finds late |

## Findings

Promises that fail without a condition, each with an input and the exact condition.

- The sweep is not only a matter of memory, as the comment at
  service/engine/core/cep.go:95-97 says. `Limits.OwnEventLosesTheMatch` (the sweep
  precedes the drain, so a member's own event loses its due negative match) and
  `Limits.SweepLosesOpenEnded` (a last state without a wait does not lengthen
  maxDuration) show it; `SweepVisibility.SweepIsInvisibleIff` has the condition.
- The start deduplication at service/engine/core/cep.go:125-128 lasts only as long as
  the progress. `Limits.RedeliveredStartForgetsTheAbort` gives a negative match after
  the forbidden event came in time; `Forgetting.AbortIsForgottenIff` says exactly
  when that is possible.
- On Kafka a stored number 0 means both "nothing applied" and "record 0 applied"
  (service/engine/core/consumer_kafka.go:77). `Recovery.EarlySnapshotLosesRecordZero`
  loses a record. `Recovery.KafkaRecoversIff` has the condition on the log,
  `Recovery.ConsistentIffCareful` the one on the schedule; only the time before the
  first consistent file matters (`Recovery.ConsistentFileIsSafe`), and there
  `Schedules.RecordsFirst` can be read off the polls.
- Validation does not look at window units, so cache keys of rules that the store
  accepts can coincide (service/base/rule/model/entity.go:89-94):
  `RuleLimits.ValidatedKeysCollide`. The second key is then dropped, its rule reads the
  first one's window, and the retention is that of the first
  (`RuleLimits.ClashKeepsTheFirst`), so a true rule does not fire
  (`RuleLimits.CollidingUnitsMissARule`). `AggregateKeys.CacheKeyInjectiveIff` and
  `AggregateKeys.CacheKeyInjectiveExactly` have the conditions.
- Pruning follows the newest event of a behaviour (service/engine/core/aggregation.go:76-83),
  while a query looks back from the time of the event at hand. An on-time event that is
  not the newest asks for buckets the newest one has pruned, with window = retention and
  the default lateness: `RuleLimits.OlderEventMissesARule`. `Pruning.BucketIsExactIff`,
  `Pruning.QueryIsScanIff` and `Pruning.KeyIsAnsweredIff` have the exact conditions, for
  each aggregation and field.
- An aggregate without a window asks for everything since the epoch
  (service/engine/core/aggregation.go:116-174), but MaxWindowFromKeys counts it as 0, and
  whatever is older than newest - maxWindow has been pruned:
  `RuleLimits.WindowlessKeyMissesARule`. It is right exactly while newest - maxWindow has
  not left the first minute (`Pruning.WindowlessIsAnsweredIff`).

Two conventions of the code, which the reference scans share: AVG divides by all events
of the window, those without the field included, and an aggregate without a window does
not see events before the epoch.

## Left out

- Recovery.RecoveryIsTransparent: the log is fixed for the whole schedule; a log that grows between runs is its final form, of which each run sees a prefix.
- Engine.Core.Restore: stated for a core with no snapshot in flight and a file whose members sit in the key groups of their names, as every file written by the model does.
- Consumers.NatsRun: broker setup, iterator and metadata errors, ack failures and the latency hook are not modelled; the run takes one message per wake and ends killed or cleanly.
- Consumers.KafkaRun: fetch errors are not modelled; how many records a poll returns and when the background write finishes are arbitrary inputs.
- NATS, Kafka, the file system, goroutines and channels appear as protocol steps only: an ordered log, a file replaced as a whole, a write that may finish or fail at any time.
- gob and JSON are value-preserving; a record that does not decode is a record without an event.
- float64 is `real` and times and durations are unbounded integers: no rounding, NaN, overflow or wrap-around.
- strings.ToUpper and strings.ToLower are ASCII only; Go also folds letters such as the dotless i.
- `%v` of a number is text carried with the value, and of a computed aggregate an arbitrary printer; other values carry their text.
- CRC-32 is an arbitrary function from names to numbers; only its remainder is used.
- The Go type switches of the two toFloat64 functions are one constructor `Num`.
- container/heap is modelled by its own sift operations on a sequence; equal deadlines may be popped in either order.
- A deadline equal to Go's zero time marks "not parked", as in the source; event times before 1970 are always late because the watermark starts at 0.
- The epoch counter and frozen epoch are fields of the shard state object rather than of the core; the snapshotter holds its core.
- RuleStrategyUsecase caching, the HTTP control plane, repositories, configuration, benchmarks and producers: they would add only easy members.
