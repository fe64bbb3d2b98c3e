# RedEye, modelled in Dafny

RedEye is an LLM gateway: agents send it chat requests, it decides whether a session may
still spend, removes personal data, picks a provider key, translates the request and
passes it on. This project models the parts of it where several requests meet in shared
state, or where data must come through a rewriting unharmed, and proves what they keep.

* **Admission control.** `LoopBudget`, `LoopDetection`, `BurnRate` and `TokenBucket` hold
  the four guards that live in Redis. One session's (or tenant's) keys are a class, each
  guard a method on it; requests are small state machines, and a run is any interleaving
  of their steps on a clock that does not go back. A call to Redis is answered, lost after
  the server ran it, or never delivered. The main results bound what a session is granted
  over every run, and lemmas give runs that reach the bounds.
* **Failover.** `Keys` is the stable sort by priority, `Mesh` builds the key lists the
  configuration service publishes, `Breaker` is the circuit breaker that all requests
  share, `Router` prepares and executes one request, and `FailoverSteps` shows that one
  routed request is a run of the breaker's machine.
* **Redaction.** `Redaction` replaces originals by tokens in a JSON tree and undoes it,
  `TierOne` is the cheap gate with the seven patterns behind it, `PiiEngine` the scan, and
  `PiiLimits` what the scan misses.
* **Lazy tools.** `ToolRouter` strips tool schemas from requests and serves them again.
* **Scanner.** `NameScan` is the byte machine for `"name": "..."` and the parser it
  implements; `ToolHint` looks for a registered name with it, 64 bytes at a time.
* **Translation.** `OpenAi`, `OpenAiNormalForm`, `SchemaMapper` and `Anthropic`
  translate between the provider formats and the universal conversation of
  `Conversation`; `Json` is the tree they share.

What the source changes step by step is a method with its loops, or a class, proved
against a function; the properties are lemmas about those functions. What the small
functions mean is stated outright: in bytes, characters, status codes, JSON fields,
tokens and milliseconds.

## What the proofs found

* The agentic loop budget is documented as 15 calls in five minutes. Over runs in which
  Redis may fail, 25 is the exact bound (`TwentyFiveIsReached`) if the clock reading and
  the Redis step of a call coincide. With a lag between them, 25 bounds the windows of a
  length exactly if length and lag together are at most five minutes
  (`BoundedIffWindowAndLagFit`); in a window one millisecond longer 30 calls are allowed,
  all by Redis (`LagShortensTheWindow`).
* The number Redis counts lies between the calls of the five minutes before the pipeline
  and those of the five minutes before the clock reading (`CountRefinesHistory`). It is
  always the latter exactly if there is no lag (`CountIsExactIffNoLag`); with one, a call
  can be forgotten when the key expires in between (`ExpiryCanForget`).
* The first debit of a token bucket is not checked (`FirstDebitIsUnchecked`). A
  reconciliation that arrives after the key expired makes a key that never expires
  (`ReconcileKeepsExpiry`). As long as Redis answers its debits, a tenant is refused for
  ever exactly if its key never expires and would hold nothing even with all open
  estimates given back (`ShutOutIffLocked`): such a reconciliation does that exactly if it
  used at least all estimates open before it (`LateReconciliationShutsOut`,
  `StrandedIsReachable`).
* Tier 1 covers five of the seven patterns; a lone PAN or IFSC number is let through
  (`BypassHidesIffPanOrIfsc`, `BarePanIsHidden`), though not behind its keyword
  (`LabelledPanIsRedacted`). A deep scan lets a payload out as it
  came exactly if no single string contains the text of a reported entity
  (`UnchangedIffNoStringHoldsAnOriginal`), so an entity that spans two strings is counted
  and given a token but goes out (`SplitCardNumber`, `SplitCardIsKept`).
* Replacing the first match in a string is documented to hit exactly the detected
  occurrence. It does exactly if no other occurrence stands before it
  (`SpanIsReplacedIffFirst`); a detected bank-account number behind the same digits in a
  longer word goes out (`WrongRunIsReplaced`).
* `find_tool_hint` is documented to report a body that contains a registered name. It
  reports the first registered one among those it sees, and it does not look at what
  stands between a captured name and the next multiple of 64 bytes
  (`HintIsFirstRegisteredSeen`, `RegisteredNameIsMissed`).
* Lazy injection repeats itself without effect exactly unless it has just added the
  phantom tool to a registry that also registers the phantom's name
  (`InjectIsFixpoint`, `SecondInjectionChanges`).

## Model

| member | source | states |
|---|---|---|
| LoopBudget.AtMostTwentyFive | redeye_gateway/src/usecases/behavior_guard.rs:146-201 | Over every interleaving, Redis failing on any call, a session is allowed at most 25 calls in any half-open window of 300,000 ms less the lag inside one request: exactly that window when the lag is zero |
| LoopBudget.TwentyFiveIsReached | redeye_gateway/src/usecases/behavior_guard.rs:146-201 | A run in which 25 calls are allowed in one such window, so the bound is exact |
| LoopBudget.BoundedIffWindowAndLagFit | redeye_gateway/src/usecases/behavior_guard.rs:146-201 | For every lag and window length: 25 bounds all windows of that length in all runs of that lag exactly if length and lag together are at most 300,000 ms |
| LoopBudget.LagShortensTheWindow | redeye_gateway/src/usecases/behavior_guard.rs:150-173 | For every lag up to the window, a run in which 30 calls are allowed in a window one millisecond longer than the bound allows |
| LoopBudget.AtMostFifteenThroughRedis | redeye_gateway/src/usecases/behavior_guard.rs:161-183 | In every reachable state each grant of the window made through Redis still has its score in the live sorted set, hence at most 15 of them |
| LoopBudget.FallbackReachable | redeye_gateway/src/main.rs:132-135 | In every reachable state fallback counters are born 300 s apart, are looked up only in their lifetime, and give at most five grants each |
| LoopBudget.NeighbouringCounters | redeye_gateway/src/main.rs:132-135 | Two lookups within one window see the same fallback counter or neighbouring ones |
| LoopBudget.AtMostTenThroughFallback | redeye_gateway/src/usecases/behavior_guard.rs:187-199 | At most ten grants of one window come from fallback counters |
| LoopBudget.CountRefinesHistory | redeye_gateway/src/usecases/behavior_guard.rs:150-183 | For any lags in the run, the count Redis answers is at least the calls the session ever recorded, allowed or refused, in the 300,000 ms before the pipeline and at most those in the 300,000 ms before the clock reading, and the verdict follows it; it is exact for a call whose pipeline takes place at its clock reading |
| LoopBudget.CountIsExactIffNoLag | redeye_gateway/src/usecases/behavior_guard.rs:150-173 | For every lag: in all runs of that lag, every answered pipeline counts the calls recorded in the 300,000 ms before its clock reading and itself, exactly if the lag is zero |
| LoopBudget.ExpiryCanForget | redeye_gateway/src/usecases/behavior_guard.rs:166-173 | A run with a lag of 1 ms in which the count is one less than the calls in the 300,000 ms before the clock reading, because the key expired in between |
| LoopBudget.HistoryReachable | redeye_gateway/src/usecases/behavior_guard.rs:166-173 | In every reachable state, whatever the lags, the sorted set never counts more than the untrimmed history, counts as it does for every cutoff still to come, and expires 300 s after the last pipeline, before which every stamp lies |
| LoopBudget.RecentIsCounted | redeye_gateway/src/usecases/behavior_guard.rs:154 | Counting above the window start counts exactly the calls less than 300,000 ms old |
| LoopBudget.CallIsItsSteps | redeye_gateway/src/usecases/behavior_guard.rs:146-201 | The call as one function is what its separate steps do when none comes between |
| LoopBudget.SessionBudget.SlidingWindow | redeye_gateway/src/usecases/behavior_guard.rs:166-173 | The pipeline turns the live set into its entries above the cutoff and the new one, and returns their number |
| LoopBudget.SessionBudget.GetWith | redeye_gateway/src/usecases/behavior_guard.rs:188-190 | Gives the cached counter, or a new one at zero once 300 s are over, and touches nothing else |
| LoopBudget.SessionBudget.EnforceAgenticLoopBudget | redeye_gateway/src/usecases/behavior_guard.rs:146-201 | The whole new state and the verdict, for each way the Redis call can end |
| LoopDetection.LoopsAreCut | redeye_gateway/src/usecases/behavior_guard.rs:98-138 | With at most k requests between check and push, no run of equal recorded hashes in one list lifetime is longer than k + 2; trimming to five never changes what the check of three reads |
| LoopDetection.RunOfKPlusTwo | redeye_gateway/src/usecases/behavior_guard.rs:98-138 | For every k >= 1 and hash, a run that records k + 2 equal hashes |
| LoopDetection.Preserved | redeye_gateway/src/usecases/behavior_guard.rs:98-138 | Each step keeps the bound on runs, counting the pending requests with the newest hash |
| LoopDetection.TopRunIsLoop | redeye_gateway/src/usecases/behavior_guard.rs:109-128 | The check fires exactly on a newest run of at least three equal to the request's hash, on the trimmed list as on the whole history |
| LoopDetection.CallIsItsSteps | redeye_gateway/src/usecases/behavior_guard.rs:89-139 | Check and push back to back are the whole call |
| LoopDetection.SessionHashes.Check | redeye_gateway/src/usecases/behavior_guard.rs:99-121 | Refuses exactly a loop in the live list, and passes when Redis fails |
| LoopDetection.SessionHashes.Push | redeye_gateway/src/usecases/behavior_guard.rs:125-131 | The list after LPUSH, LTRIM and EXPIRE |
| LoopDetection.SessionHashes.EnforceLoopDetection | redeye_gateway/src/usecases/behavior_guard.rs:89-139 | New list and verdict for each way the two Redis calls can end |
| BurnRate.SpendIsBounded | redeye_gateway/src/usecases/behavior_guard.rs:210-277 | With at most k requests in flight, each costing at most cap, the spend recorded for any calendar minute stays below 5000 + k * cap micro-dollars, one cap more for each check that Redis failed to answer; requests checked in an earlier minute are counted |
| BurnRate.SpendIsReached | redeye_gateway/src/usecases/behavior_guard.rs:210-277 | For every k >= 1 and every cost of at least one token, a run that records two micro-dollars less than 5000 + k * cap, the most that even costs allow |
| BurnRate.ExpiryKeepsTheMinute | redeye_gateway/src/usecases/behavior_guard.rs:266-272 | Until the end of the following minute a key reads as everything ever recorded for its minute |
| BurnRate.Reachable | redeye_gateway/src/usecases/behavior_guard.rs:210-277 | In every reachable state a minute over its limit has room for every request that can still add to it |
| BurnRate.AddersStep | redeye_gateway/src/usecases/behavior_guard.rs:218-240 | Once a minute is over its limit, only a check that Redis failed to answer admits a new request that can add to it |
| BurnRate.SessionSpend.EnforceBurnRate | redeye_gateway/src/usecases/behavior_guard.rs:210-243 | Refuses exactly when Redis answers that the live spend of the clock's minute has reached the limit |
| BurnRate.SessionSpend.RecordSessionSpend | redeye_gateway/src/usecases/behavior_guard.rs:254-277 | Adds two micro-dollars per token to the minute's key and renews its expiry; zero cost changes nothing |
| BurnRate.CheckIsItsSteps | redeye_gateway/src/usecases/behavior_guard.rs:210-243 | A check is its two steps in a run: minute of 60,000 ms, and refusal from 5000 micro-dollars |
| BurnRate.RecordingIsItsSteps | redeye_gateway/src/usecases/behavior_guard.rs:254-277 | A recording is its two steps: two micro-dollars per token, for 120,000 ms |
| TokenBucket.Conservation | redeye_gateway/src/usecases/proxy.rs:425-513 | In every reachable state the balance is what the key's lifetime started from, less actual tokens of requests reconciled in it, estimates of those only debited in it, and corrections of requests from elsewhere |
| TokenBucket.Floor | redeye_gateway/src/usecases/proxy.rs:425-513 | With at most k requests outstanding, each underestimated by at most U, the balance is at least -k * U, less the excess of a first estimate over the capacity, and one U for each request let through because Redis failed |
| TokenBucket.FloorIsReached | redeye_gateway/src/usecases/proxy.rs:425-513 | For all limits that let a request through, overdraft of the first estimate included, and any number of requests passed without a debit, a run that ends on the floor |
| TokenBucket.RefreshesIffMadeByDebit | redeye_gateway/src/usecases/proxy.rs:438-441 | The key goes away within a day exactly if a debit made it; otherwise it stays for ever |
| TokenBucket.ReconcileKeepsExpiry | redeye_gateway/src/usecases/proxy.rs:481-495 | After a reconciliation the key expires exactly if it was live and expiring when it came |
| TokenBucket.ShutOutIffLocked | redeye_gateway/src/usecases/proxy.rs:428-495 | From any state: no continuation in which Redis answers the debits admits a debit of any size at any time, exactly if the key never expires and balance and open estimates together are at most zero |
| TokenBucket.LateReconciliationShutsOut | redeye_gateway/src/usecases/proxy.rs:481-495 | A reconciliation that changes the key when none is live shuts the tenant out in that sense exactly if it used at least all estimates open before it, its own included |
| TokenBucket.StrandedIsReachable | redeye_gateway/src/usecases/proxy.rs:473-495 | One request, reconciled a day after its debit, shuts its tenant out |
| TokenBucket.FirstDebitIsUnchecked | redeye_gateway/src/usecases/proxy.rs:438-441 | A debit on a missing key is admitted whatever its estimate, and starts the balance below zero exactly if the estimate exceeds the capacity |
| TokenBucket.Tenant.Script | redeye_gateway/src/usecases/proxy.rs:428-443 | The script's answer and the key after it |
| TokenBucket.Tenant.EnforceTokenBucket | redeye_gateway/src/usecases/proxy.rs:420-465 | From the prompt's n bytes: with b tokens left a call is refused exactly when Redis answers and b <= 0 or n >= 4b + 4; otherwise it takes d >= 1 tokens with 4d <= max(n, 4) < 4d + 4, from the key or, if none is live, from 100,000 for a day; the key after each way the call can end |
| TokenBucket.EstimateIsTaken | redeye_gateway/src/usecases/proxy.rs:425-443 | The estimate is the only number of tokens that so fits the prompt, and what the script does with it, in numbers |
| TokenBucket.EnforcingIsADebit | redeye_gateway/src/usecases/proxy.rs:420-465 | A call is one debit of the runs the results speak of: same key after it, refused together |
| TokenBucket.SyncIsAReconcile | redeye_gateway/src/usecases/proxy.rs:473-495 | A reconciliation is one step of those runs |
| TokenBucket.Tenant.SyncTokenBucket | redeye_gateway/src/usecases/proxy.rs:473-495 | The key after the reconciliation: unchanged for a right estimate, otherwise moved by the difference |
| Keys.SortIsStable | redeye_gateway/src/infrastructure/llm_router.rs:109-110 | The sort gives a permutation in priority order that keeps the order within one priority |
| Keys.StableSortIsUnique | redeye_gateway/src/infrastructure/llm_router.rs:109-110 | A stable sort of a sorted list is that list: stability determines the result |
| Keys.SortedIsFixed | redeye_gateway/src/infrastructure/llm_router.rs:109-110 | Sorting sorted keys changes nothing |
| Breaker.OpenIffTrippedLately | redeye_gateway/src/infrastructure/llm_router.rs:180-266 | In every reachable state of any number of concurrent requests an alias is open exactly if a failure on it was recorded less than 60 s ago by a request that had sent an attempt on it which ended retryable or unreachable |
| Breaker.LateAttemptsPassedBefore | redeye_gateway/src/infrastructure/llm_router.rs:112-124 | An attempt sent within 60 s after a trip of its alias belongs to a request that passed the filter for that key before the trip |
| Breaker.Reachable | redeye_gateway/src/infrastructure/llm_router.rs:112-266 | Every interleaving keeps: attempts follow their filter, answers their attempt, trips a failed answer, no key passes a filter within 60 s of a trip, and the breaker holds each alias's last trip |
| Router.BuildIsKeyBlind | redeye_gateway/src/infrastructure/llm_router.rs:283-355 | Whether a provider request can be built does not depend on the key, and two built requests differ in the credential headers alone |
| Router.PreparedBuilds | redeye_gateway/src/infrastructure/llm_router.rs:108-166 | A prepared request holds all healthy keys in stable priority order and can be built for each |
| Router.ErrorMeansAllAttempted | redeye_gateway/src/infrastructure/llm_router.rs:210-269 | After a prepared request an error means that every healthy key was attempted in order, failed and was tripped; the build error in the fallback loop never fires |
| Router.TrippedKeysAreOpen | redeye_gateway/src/main.rs:127-130 | Every key tripped in a call is open for 60 s after its trip |
| Router.PublishedOrderIsAttemptOrder | redeye_gateway/src/infrastructure/llm_router.rs:108-124 | For a published list the gateway attempts the published order less the open keys |
| Router.Gateway.PrepUpstreamRequest | redeye_gateway/src/infrastructure/llm_router.rs:79-168 | The first error in the source's order, or all healthy keys with the first one's request built |
| Router.Gateway.TryFallback | redeye_gateway/src/infrastructure/llm_router.rs:210-266 | One fallback key either ends the call, as the whole contract demands, or extends the failed and tripped prefix by one |
| Router.Gateway.ExecuteUpstreamRequest | redeye_gateway/src/infrastructure/llm_router.rs:170-270 | Attempts are a prefix of the chosen keys, each sent the request built with its own key; if all can be built, keys are attempted up to the first answer other than 429, 500, 502, 503 and 504, which is returned, each key before it is left open for 60 s, and there is an error exactly without such an answer; which error is returned |
| Router.ExecutionFailsOver | redeye_gateway/src/infrastructure/llm_router.rs:62-269 | The same of every outcome that keeps the contract of an execution: no response of the five codes is ever returned, and the first other one always is |
| Router.RequestOfProvider | redeye_gateway/src/infrastructure/llm_router.rs:44-355 | Address, credential headers and payload for a provider whose name has `anthropic`, `gemini` or neither in it, and the error when it cannot be built |
| Router.Gateway.RouteChatCompletionWithFallback | redeye_gateway/src/infrastructure/llm_router.rs:272-281 | Both together, for arbitrary upstream outcomes: prefix of the healthy keys, each sent its own request, failing over between them, error only after all of them failed |
| FailoverSteps.CallIsItsSteps | redeye_gateway/src/infrastructure/llm_router.rs:79-270 | From any reachable state of the shared breaker, preparing and executing a request goes on as a run of its machine with the same breaker and the same answer, so the breaker's safety holds of the gateway's calls |
| FailoverSteps.ProbesFilter | redeye_gateway/src/infrastructure/llm_router.rs:112-124 | Asking the breaker key by key lets through exactly the healthy keys in order |
| FailoverSteps.FailuresTrip | redeye_gateway/src/infrastructure/llm_router.rs:180-266 | Failed attempts one after the other trip exactly their aliases, each at the end of its attempt |
| Mesh.UpsertRoutingMesh | redeye_config/src/api/handlers.rs:301-355 | Exactly the rows' models and the registered one, each with the stable sort of its keys and placeholder |
| Mesh.GroupByModel | redeye_config/src/api/handlers.rs:301-318 | Each model's list is its rows in row order, and there is no other list |
| Mesh.Place | redeye_config/src/api/handlers.rs:320-350 | The registered model gets one placeholder exactly if the alias is absent; other lists stay |
| Mesh.PublishedOrder | redeye_config/src/api/handlers.rs:335-355 | A published list is a stably sorted permutation of the model's rows plus the placeholder exactly if the alias was absent; the alias is then there, and sorting again changes nothing |
| Mesh.PublishedKeysAreRows | redeye_config/src/api/handlers.rs:301-350 | A published list holds each key as often as the model has rows with its alias, credential, priority and weight, and one key without credential for the registered alias exactly if it had no row |
| Mesh.SlotIsRows | redeye_config/src/api/handlers.rs:311-350 | What is sorted is the model's rows in row order, the key without credential behind them |
| Redaction.RestoreUndoesRedact | redeye_compliance/src/usecases/pii_engine.rs:440-463 | Replacing each token by its original in reverse order restores the whole tree, overlaps and originals inside earlier tokens included, if each token was absent when its step came |
| Redaction.DetokenizationUndoesRedaction | redeye_compliance/src/usecases/pii_engine.rs:314-340 | It does so for tokens that are apart and occur in no string of the tree, in any order |
| Redaction.UndoOne | redeye_compliance/src/usecases/pii_engine.rs:442-448 | One fresh replacement is undone by replacing the token's first occurrence |
| Redaction.Locate | redeye_compliance/src/usecases/pii_engine.rs:317-321 | After a token is put in, another token occurs only where it did before, or in the very same place and then not apart from it |
| Redaction.MadeTokensAreApart | redeye_compliance/src/usecases/pii_engine.rs:317-321 | Tokens with different UUIDs never start with one another, whatever their types |
| Redaction.FreshFromTheStart | redeye_compliance/src/usecases/pii_engine.rs:440-450 | Tokens absent from the original string are absent at every later step |
| Redaction.SpanIsReplacedIffFirst | redeye_compliance/src/usecases/pii_engine.rs:433-448 | The occurrence at a given span is the one replaced exactly if no other stands before it in the string when its step comes |
| Redaction.TreeUnchangedIffNoOriginal | redeye_compliance/src/usecases/pii_engine.rs:440-463 | With fresh tokens a tree stays as it is exactly if no string of it contains an original |
| Redaction.StringUnchangedIffNoOriginal | redeye_compliance/src/usecases/pii_engine.rs:442-450 | A string stays as it is exactly if it contains no original |
| Redaction.ApplyToString | redeye_compliance/src/usecases/pii_engine.rs:442-450 | The loop over the replacements, first occurrence each |
| Redaction.ApplyTokenReplacements | redeye_compliance/src/usecases/pii_engine.rs:440-463 | The walk over the tree changes its strings so and nothing else |
| TierOne.ContainsDigitSequence | redeye_compliance/src/usecases/pii_engine.rs:415-429 | True exactly if some contiguous stretch of digits, spaces and dashes has min_len digits (one, for min_len zero) |
| TierOne.BypassedIffNotIndicated | redeye_compliance/src/usecases/pii_engine.rs:173-258 | A text goes to the deep scan exactly if it spells one of thirteen words, written out, in any mix of upper and lower case, or has nine digits in a stretch of digits, spaces and dashes |
| TierOne.StretchOfNine | redeye_compliance/src/usecases/pii_engine.rs:256 | The digit scan for nine in plain characters: between two places only digits, spaces and dashes, nine or more of them digits |
| TierOne.MatchIsIndicated | redeye_compliance/src/usecases/pii_engine.rs:94-100 | Every match of the five gated patterns is a stretch of nine digits or has an at sign |
| TierOne.BypassHidesNothing | redeye_compliance/src/usecases/pii_engine.rs:244-266 | When the bypass is taken, none of those five patterns matches in the text or any piece of it |
| TierOne.BypassHidesIffPanOrIfsc | redeye_compliance/src/usecases/pii_engine.rs:98-99 | The bypass hides a match exactly if PAN or IFSC matches |
| TierOne.BarePanIsHidden | redeye_compliance/src/usecases/pii_engine.rs:98 | A bare PAN number is let through |
| PiiEngine.CollectText | redeye_compliance/src/usecases/pii_engine.rs:394-412 | Appends every string of the tree in visiting order, each with a space after it |
| PiiEngine.StringsArePieces | redeye_compliance/src/usecases/pii_engine.rs:388-412 | Every string of the tree is a contiguous piece of the collected text |
| PiiEngine.TextIsSpacedStrings | redeye_compliance/src/usecases/pii_engine.rs:388-412 | The collected text is exactly the strings of the tree, and nothing else of it, a space behind each |
| PiiEngine.BypassIsSafe | redeye_compliance/src/usecases/pii_engine.rs:244-266 | When the scan is skipped, no string of the payload matches one of the five gated patterns |
| PiiEngine.Scan | redeye_compliance/src/usecases/pii_engine.rs:231-348 | Every branch of the scan: payload, token map, count and flag, replacements applied in some order of the map |
| PiiEngine.DeepScanIffIndicated | redeye_compliance/src/usecases/pii_engine.rs:231-278 | A scan whose backend fails fails with it exactly if the text is indicated; otherwise the payload goes out as it came, nothing counted |
| PiiEngine.FlagIffIndian | redeye_compliance/src/usecases/pii_engine.rs:245-331 | The flag is set exactly if one of the first five words is spelled, or the deep scan is made and reports an entity of one of three kinds |
| PiiEngine.EntriesOfTheMap | redeye_compliance/src/usecases/pii_engine.rs:314-326 | The token map holds a token with an original exactly if they are the written-out token and the text of an entity within the text |
| PiiEngine.MakeTokens | redeye_compliance/src/usecases/pii_engine.rs:314-326 | One map entry for each entity within the text, and their number |
| PiiEngine.ListMap | redeye_compliance/src/usecases/pii_engine.rs:333-337 | Each token of the map once with its original |
| PiiEngine.ScanCanBeUndone | redeye_compliance/src/usecases/pii_engine.rs:296-347 | Whatever the backend reports and in whatever order the map is walked, undoing the replacements gives the payload back, and the map has one entry for each entity counted |
| PiiEngine.OneTokenEach | redeye_compliance/src/usecases/pii_engine.rs:314-326 | The token map has exactly as many entries as entities counted |
| PiiEngine.EntitiesAcrossStringsAreKept | redeye_compliance/src/usecases/pii_engine.rs:339-347 | If no single string contains an original, the payload goes out unchanged with every entity counted |
| PiiEngine.UnchangedIffNoStringHoldsAnOriginal | redeye_compliance/src/usecases/pii_engine.rs:231-348 | With fresh tokens a scan lets the payload out unchanged exactly if its text is empty or bypassed, or no single string contains the text of an entity the backend reports within it |
| PiiLimits.SplitCardNumber | redeye_compliance/src/usecases/pii_engine.rs:394-412 | A card number split over two strings is a match of the credit-card pattern in the collected text, boundaries included, and is in neither string |
| PiiLimits.SplitCardIsKept | redeye_compliance/src/usecases/pii_engine.rs:314-347 | A scan whose backend reports that match counts one entity and lets the number out unchanged |
| PiiLimits.OneEntityScan | redeye_compliance/src/usecases/pii_engine.rs:314-347 | What a scan with one entity within the text makes: one replacement, one map entry, one counted |
| PiiLimits.WrongRunIsReplaced | redeye_compliance/src/usecases/pii_engine.rs:433-448 | A scan whose backend reports the second of two equal runs of digits replaces the first, and the reported number goes out, still a match of its pattern |
| PiiLimits.LabelledPanIsRedacted | redeye_compliance/src/usecases/pii_engine.rs:214-347 | The PAN number that is let through alone is redacted, counted and flagged behind its keyword in mixed case |
| ToolRouter.Load | redeye_gateway/src/usecases/tool_router.rs:203-213 | The index built leads each name to the last tool of that name and knows all names |
| ToolRouter.Lookup | redeye_gateway/src/usecases/tool_router.rs:232-234 | Finds a tool of the name exactly if one is registered |
| ToolRouter.RewriteEach | redeye_gateway/src/usecases/tool_router.rs:349-414 | The loop over the tools rewrites each, and its flag is set exactly if some registered tool is wanted in full or has parameters |
| ToolRouter.InjectLazySummaries | redeye_gateway/src/usecases/tool_router.rs:327-450 | From text to text: a body comes out exactly if some registered tool is wanted in full or has parameters, with every tool rewritten and the phantom present |
| ToolRouter.InjectedIffConcerned | redeye_gateway/src/usecases/tool_router.rs:337-418 | A body is rewritten exactly if its tools hold a function of a registered name with parameters, or wanted in full going by the body's own messages |
| ToolRouter.RegisteredToolIsRewritten | redeye_gateway/src/usecases/tool_router.rs:340-413 | Such a tool gets its schema if it is wanted and has one, and otherwise loses its parameters to the summary line, written out |
| ToolRouter.PhantomInJson | redeye_gateway/src/usecases/tool_router.rs:57-72 | The tool added is a function `get_tool_details` of one required text `tool_name` |
| ToolRouter.InjectIsFramed | redeye_gateway/src/usecases/tool_router.rs:349-434 | Other fields of the body, tool order, unregistered tools and all but description and parameters of registered functions stay; one phantom is appended exactly if none was there |
| ToolRouter.InjectIsFixpoint | redeye_gateway/src/usecases/tool_router.rs:340-434 | Injecting again gives nothing or the same, exactly unless the phantom was just added and its name is registered so as to be rewritten |
| ToolRouter.SecondInjectionChanges | redeye_gateway/src/usecases/tool_router.rs:418-428 | A registry and a body for which the second injection changes the first one's outcome |
| ToolRouter.InjectAgain | redeye_gateway/src/usecases/tool_router.rs:362-414 | The second time gives the same rather than nothing exactly if a registered tool is still wanted in full |
| ToolRouter.RewriteIsIdempotent | redeye_gateway/src/usecases/tool_router.rs:353-414 | Rewriting a tool twice is rewriting it once |
| ToolRouter.PhantomRewritten | redeye_gateway/src/usecases/tool_router.rs:57-72 | When the phantom's own descriptor is changed by the rewriting |
| ToolRouter.StrippedToolComesBack | redeye_gateway/src/usecases/tool_router.rs:372-412 | A stripped tool that is wanted later gets its whole function back but for the description |
| ToolRouter.StrippedSchemaIsServed | redeye_gateway/src/usecases/tool_router.rs:457-505 | A call of `get_tool_details` that names a registered tool is answered by a tool message under the call's own id, its content parsing to the registered schema or giving the summary |
| ToolRouter.AnsweredIffAsked | redeye_gateway/src/usecases/tool_router.rs:457-487 | An answer is given exactly if the text has the phantom's name in it and its first call, by JSON pointer, is for the phantom and names a registered tool |
| NameScan.NameScanFsm.Feed | redeye_gateway/src/infrastructure/mcp_registry.rs:59-113 | Captured value and new machine state after any bytes |
| NameScan.EntryIsCaptured | redeye_gateway/src/infrastructure/mcp_registry.rs:62-109 | Byte by byte: an idle machine captures the value of any `"name"` entry, with blanks, tabs, returns and line feeds around the colon and escapes in the value, whatever follows, if no quote comes before |
| NameScan.OtherByteIsNoEntry | redeye_gateway/src/infrastructure/mcp_registry.rs:82-95 | Any other byte in place of the colon or the opening quote sends the machine back with nothing captured |
| NameScan.MachineIsParser | redeye_gateway/src/infrastructure/mcp_registry.rs:59-113 | Started idle, the machine captures exactly what the recursive parser returns, and stops at the same byte |
| NameScan.KeyIsFound | redeye_gateway/src/infrastructure/mcp_registry.rs:62-81 | The key states are a correct Knuth-Morris-Pratt automaton: they find the first occurrence of the key from the quote they stand on |
| NameScan.FindKeyIsFirst | redeye_gateway/src/infrastructure/mcp_registry.rs:60-81 | The parser's search gives the first position of the key, or there is none |
| NameScan.RunInPieces | redeye_gateway/src/infrastructure/mcp_registry.rs:59-113 | Feeding two pieces in turn is feeding them together, up to the first capture |
| NameScan.CutsDoNotMatter | redeye_gateway/src/infrastructure/mcp_registry.rs:214-224 | However a stream is cut into chunks, the first capture is the parser's on the whole stream |
| ToolHint.FindToolHint | redeye_gateway/src/infrastructure/mcp_registry.rs:215-238 | The loop over 64-byte chunks of the first 16384 bytes, with what it drops |
| ToolHint.FirstEntryIsHint | redeye_gateway/src/infrastructure/mcp_registry.rs:206-238 | The first name entry of a body is the hint if it is registered and ends within 16384 bytes |
| ToolHint.OnlyFirstBytesCount | redeye_gateway/src/infrastructure/mcp_registry.rs:219 | Bytes behind the first 16384 change nothing |
| ToolHint.SecondChunkIsSeen | redeye_gateway/src/infrastructure/mcp_registry.rs:223-236 | Behind an unregistered name in the first 64 bytes a registered one in an entry of the following bytes is the hint |
| ToolHint.HintIsSound | redeye_gateway/src/infrastructure/mcp_registry.rs:215-238 | Any hint is registered and is the unescaped value of a contiguous name entry in the first 16384 bytes |
| ToolHint.HintIsFirstRegisteredSeen | redeye_gateway/src/infrastructure/mcp_registry.rs:206-238 | The hint is the first registered of the names the parser finds when it resumes, after each, at the next multiple of 64; there is one exactly if one of those is registered |
| ToolHint.OnlyFirstOfChunk | redeye_gateway/src/infrastructure/mcp_registry.rs:224-236 | In a body of one chunk an unregistered first name means no hint |
| ToolHint.RegisteredNameIsMissed | redeye_gateway/src/infrastructure/mcp_registry.rs:224-236 | A JSON body that contains a registered name behind another and gives no hint |
| OpenAi.ToUniversal | redeye_gateway/src/infrastructure/translators.rs:70-189 | The loops that read a request, with the first error met |
| OpenAi.ReadMessage | redeye_gateway/src/infrastructure/translators.rs:107-168 | One message's content: parts, then calls, collapsed to a tool result where there is an id |
| OpenAi.MessageIsRead | redeye_gateway/src/infrastructure/translators.rs:107-175 | A request with one more message of a user, assistant or tool reads as before with that message: the texts and images of its content in order, other parts adding nothing, then its calls; a tool result gets all its texts run together |
| OpenAi.SystemMessageIsRead | redeye_gateway/src/infrastructure/translators.rs:79-95 | A system message sets the prompt to its text or, of several parts, the first text part, and otherwise changes nothing |
| OpenAi.BadMessageFails | redeye_gateway/src/infrastructure/translators.rs:78-153 | With one more message a request that could be read fails exactly for a role that is none of the five, or for arguments that cannot be read outside a system message, and with which error |
| OpenAi.ReadToolCalls | redeye_gateway/src/infrastructure/translators.rs:142-153 | The loop over the calls, with the first failure to read arguments |
| OpenAi.FromUniversal | redeye_gateway/src/infrastructure/translators.rs:191-284 | The loops that write a request |
| OpenAi.MessagesAreWritten | redeye_gateway/src/infrastructure/translators.rs:191-266 | The prompt goes first as a system message, every message keeps its place under the name of its role, and calls are function calls |
| OpenAiNormalForm.RoundTrip | redeye_gateway/src/infrastructure/translators.rs:70-284 | For every conversation, writing and reading back succeeds and gives its normal form: text joined by lines, images dropped, calls after text, tool results collapsed to the last id, empty messages gone, last system message with text as prompt |
| OpenAiNormalForm.NormalizeIsIdempotent | redeye_gateway/src/infrastructure/translators.rs:70-284 | Normal forms satisfy the direct description of being normal, and normalizing again changes nothing |
| OpenAiNormalForm.UnchangedIffNormal | redeye_gateway/src/infrastructure/translators.rs:70-284 | A conversation comes back unchanged exactly if it is normal |
| OpenAiNormalForm.FlattenedIsNormalText | redeye_gateway/src/infrastructure/translators.rs:217-258 | The text built with conditional newlines is the texts joined by lines from the first non-empty one on |
| OpenAiNormalForm.NormalContentIsNormal | redeye_gateway/src/infrastructure/translators.rs:107-175 | Exactly the normal contents are left as they are |
| SchemaMapper.MapOpenAiToolsToAnthropic | redeye_gateway/src/infrastructure/schema_mapper.rs:5-40 | Maps named function tools in order, none if there is none |
| SchemaMapper.NamedFunctionsAreMapped | redeye_gateway/src/infrastructure/schema_mapper.rs:9-32 | A tool is mapped exactly if it is a function with a name, to that name, its description or none, and its parameters or an empty object schema |
| SchemaMapper.MappedInOrder | redeye_gateway/src/infrastructure/schema_mapper.rs:9-32 | Tools are mapped one by one, in order |
| SchemaMapper.MappedToolIsStable | redeye_gateway/src/infrastructure/schema_mapper.rs:9-32 | A mapped tool stands for a function tool that maps to it again, with name, description and schema of the original |
| SchemaMapper.MapAnthropicToolUseToOpenAiCalls | redeye_gateway/src/infrastructure/schema_mapper.rs:45-77 | Maps tool-use blocks with object input in order, none if there is none |
| SchemaMapper.ToolUsesAreMapped | redeye_gateway/src/infrastructure/schema_mapper.rs:50-70 | A block is mapped exactly if it is a tool use with id, name and object input, to a function call with the printed input |
| Anthropic.FromUniversal | redeye_gateway/src/infrastructure/translators.rs:360-444 | The loops that write an Anthropic request |
| Anthropic.RequestConveys | redeye_gateway/src/infrastructure/translators.rs:360-444 | The request in JSON, for every conversation: roles alternate; every message but system messages stands there in order under `assistant` or `user` with its blocks written out; one place between two neighbours of one role and none elsewhere holds a placeholder; prompt, settings and token limit, 4096 if none is given |
| Anthropic.AlternatesWithoutLoss | redeye_gateway/src/infrastructure/translators.rs:360-425 | Roles alternate; deleting the placeholders leaves exactly the mapped non-system messages in order; one placeholder per pair of neighbours with one role, so at most 2m - 1 messages |
| Anthropic.EmitNextIsFaithful | redeye_gateway/src/infrastructure/translators.rs:370-424 | One more message keeps all of that |
| Anthropic.ToolCallsSurvive | redeye_gateway/src/infrastructure/translators.rs:401-411 | Calls sent as tool-use blocks and mapped back are exactly those with object arguments, in order, with id, name and arguments |
| Anthropic.CallsReportedIffAny | redeye_gateway/src/infrastructure/translators.rs:456-500 | An answer reports tool calls exactly if one of them has object arguments, and then all of those in order |

## Left out

- LoopBudget.AtMostTwentyFive: the window is shortened by the lag between a call's clock reading and its Redis step (and between cache lookup and increment), because longer windows fail under that lag (`LoopBudget.BoundedIffWindowAndLagFit`).
- LoopBudget.CountRefinesHistory: between two numbers, not equal to the upper one, for a call whose pipeline lags behind its clock reading; without a lag, and only then, it is always the upper one (`LoopBudget.CountIsExactIffNoLag`).
- TokenBucket.Floor: bounds the first estimate as a limit of the run, because the script does not check it (`TokenBucket.FirstDebitIsUnchecked`).
- PiiEngine.Scan: needs entities within the text to have their start not after their end, as the source's slicing does (it panics otherwise); positions count characters, not UTF-8 bytes.
- TierOne.BypassHidesNothing: for texts whose decimal digits are ASCII, as the digit scan only knows those while the patterns take Unicode digits.
- Redaction.ApplyTokenReplacements: rewrites a JSON tree as a value and returns it; the source's exclusive mutable references allow no aliasing to be lost.
- ToolRouter.InjectLazySummaries: edits the tools as values in a sequence, likewise.
- OpenAi.ToUniversal: starts from the typed request; how the JSON library fills the source's structs from a body is not part of this model.
- Shared assumptions: one clock for all parties, Redis keeps its data when it fails, the in-process caches evict by time only, UUIDs are fresh (sorted-set members never collide), hashes are compared as opaque values, and the clock never reads before the epoch.
- Numbers: counters and tokens are unbounded, so u64 and u32 wrap-around and the narrowing of estimates are not modelled; money is exact, in micro-dollars; a corrupted burn-rate value, which the source refuses, does not arise.
- JSON text: printing and parsing are an assumed pair of inverses; a number is its decimal text.
- Regular expressions and the keyword automaton are predicates on text; Unicode digit and word classes are parameters.
- Provider names are taken in lower case; base_url and schema_format updates, input checks and publication of the mesh, and what a publish does to other tenants.
- Gemini bodies stay universal conversations; Gemini and Anthropic reading, other response fields of unify_response and streaming chunks.
- The set of tools wanted in full is any function of the messages field: keyword gate, embeddings and similarity are not modelled.
- Request headers other than the credential's, and the provider's answer but for its status.
- HTTP, gRPC, Redis and Postgres transport, retries below one call, telemetry, tracing, authentication, encryption, the dashboard.
- The MCP sandbox, geo-routing, semantic caches, fan-out, warm-up and the other registry lookups: easy members beside these.
