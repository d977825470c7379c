# FAIR, modelled and proved in Dafny

FAIR routes a request to free model providers, keeps within their allowances, judges the
answers and hands one back. This project models the parts of it where a mistake is
hardest to see and proves what they keep, over every input, run and interleaving. It
needs nothing but its own files: `dafny verify dfyconfig.toml`.

| Module | What it models |
|---|---|
| `Matching` | counting independent origins: augmenting paths and why the count is a maximum |
| `Ledger`, `Windows`, `Dispatch` | the shared quota ledger, its transactions, accounting windows over all interleavings, and what a provider is sent |
| `Governor`, `LocalWindows`, `Probes`, `Refusals`, `Backoff` | one process's quota governor: states, its own count, half-open probes, what bars a provider and for how long, escalating waits |
| `PythonSubset`, `OperatorLaws`, `CodeValidator`, `Refinement`, `Limits`, `Machine` | the bounded Python interpreter, the meaning it refines and its laws, what its limits refuse, and the machine that runs it |
| `Fence`, `JsonText` | reading JSON out of a fence or a wrapper of prose |
| `Transport` | the copy of a JSON Schema that a provider receives |
| `Splitting`, `Streaming`, `Assembly`, `Parts` | lines of a streamed body, the completion put together from chunks, and the merging of streamed parts |
| `Pointer`, `Claims`, `Engine`, `Cache` | grounding, claims, the quality gate and the cache that judges again |
| `Selector`, `Routing`, `RefusedSizes`, `Performance` | the routes a solve may try, a whole solve with its cross-check, sizes a provider refused, rolling statistics |
| `Options`, `Lists`, `Dispositions`, `JsonValues` (Shared.dfy) | values the others share |

Objects whose methods update their fields are classes (`Matcher`, `SharedQuotaLedger`,
`MemoryQuotaGovernor`, `Benches`, `Interpreter`, `Solver`, `SizeMemory`,
`PerformanceRegistry`, `MemoryCache`); each method is proved against a function of the old
state, and the results are about that function and about runs of it.
A run is a sequence of atomic steps with a nondecreasing clock; every `await` at which
the governor gives way is a point where any other step may come.

## Where the code and its own text differ

The model follows the code. What differs is stated as a lemma, with the exact condition but
for the last:

- Releasing a reservation with no stamp is granted by the ledger while the pool has no
  reset, although its text (fair/embedded/quota.py:204-206) says it is refused. A refund is
  certain to stay in its own window exactly when it carries a stamp
  (`Windows.SafeExactlyWhenStamped`), and `Windows.UnstampedRefundUndercounts` shows the cost.
- A window is known only by its reset. When a report brings a reset forward, the same
  midnight may stamp two windows; a reservation stays safe exactly when the reset is not
  before its stamp (`Windows.SafeExactlyWhenNotBroughtForward`).
- A reply from before an outage does close an open circuit: only a running half-open slot
  is guarded (`Probes.ReplyCloses`).
- The two observation methods of the governor apply their updates in different orders;
  `Governor.ObserveOrders` says exactly when they agree, which in every run they do
  (`Probes.OrdersAgreeInEveryRun`).
- Merging streamed parts does lose what a part declares (fair/providers/live.py:1467-1468
  says nothing is lost) when a later part has another `thoughtSignature`, and lets some
  malformed parts through that the envelope check would refuse alone
  (`Parts.NothingIsLost`, `Parts.MergedIsAccepted`).
- A size refusal that a kept size covers is not kept itself and is forgotten with it: it is
  held for its hour exactly when no live size covered it or one lasts as long
  (`RefusedSizes.HeldForItsHourExactly`).
- A report of nothing left is not recorded in the shared ledger when the reset FAIR settles on
  is more than a day ahead, as the Pacific midnight is on the day clocks go back, and the
  pool knows no reset of its own (`Governor.ZeroReachesLedger`).
- A second exhaustion moves a governor's own reset even earlier, where the ledger keeps the
  later one; that alone ends an exhaustion before its time (`Refusals.BarredIsRefused`).
- Clearing a client's cache also clears clients whose name continues its name with a colon
  (`Cache.ClearTakes`).
- A `const` beside an `enum` is dropped for transport, which loses nothing exactly when every
  value of the `enum` is the `const` (`Transport.ConstBesideEnum`).
- Dropping `prefixItems` from a schema can refuse answers its author accepts
  (`Transport.PrefixItemsBreakIt`); which schemas it does so for is inclusion of schemas.

## Model

| member | source | states |
|---|---|---|
| Matching.IndependentCount | fair/quality/source_reviews.py:53-71 | the count is the size of a matching between origin groups and content hashes, and no matching is larger, for every review list |
| Matching.Matcher.Augment | fair/quality/source_reviews.py:61-69 | success adds one owner and touches no hash seen before; failure changes nothing and leaves the newly seen hashes exhausted; exhausted hashes stay so; it terminates as unseen hashes shrink |
| Matching.SearchAll | fair/quality/source_reviews.py:71 | after the search from every origin each one owns a hash or reaches only exhausted ones, and the count is the number of owned hashes |
| Matching.BuildGraph | fair/quality/source_reviews.py:56-58 | origin and hash are joined exactly when some review carries both |
| Matching.CoverBounds | fair/quality/source_reviews.py:53-71 | the exhausted hashes and the owners of the others cover every pair, so they bound every matching |
| Matching.TakeOwned | fair/quality/source_reviews.py:66-67 | taking a hash from an owner who found another one keeps every other ownership apart |
| Ledger.NextWindowReset | fair/embedded/quota.py:23-30 | a window's reset lies ahead: an hour on, or the next midnight, which for UTC is a whole day and less than a day ahead |
| Ledger.SharedQuotaLedger.RecoverRow | fair/embedded/quota.py:126-146 | a missing row is made, a row whose reset is due is cleared with all usage, any other is unchanged |
| Ledger.SharedQuotaLedger.Remaining | fair/embedded/quota.py:148-155 | what is left of a limit after a due reset, never negative; without a limit nothing is looked up |
| Ledger.SharedQuotaLedger.Available | fair/embedded/quota.py:157-162 | a pool is available exactly when it is not exhausted and below its limit, after a due reset |
| Ledger.SharedQuotaLedger.TakeRequest | fair/embedded/quota.py:164-188 | the whole effect of a reservation on the table: refusal leaves the recovered row, a grant counts one for pool and application and returns the reset as stamp |
| Ledger.SharedQuotaLedger.GiveBack | fair/embedded/quota.py:190-223 | a refund is applied only while the pool's reset is the stamp, to pool and application, never below zero |
| Ledger.SharedQuotaLedger.Report | fair/embedded/quota.py:225-254 | an observation only raises the count and moves an exhausted pool's reset only later; an unusable one changes nothing |
| Ledger.SharedQuotaLedger.MarkExhausted | fair/embedded/quota.py:256-272 | an exhausted pool keeps the later of two resets; a reset that is missing or over is ignored |
| Ledger.AlwaysRecoverable | fair/embedded/quota.py:246-249 | in every run an exhausted pool has a reset |
| Ledger.ExhaustionSticks | fair/embedded/quota.py:225-272 | while every call comes before the reset the pool stays exhausted, its reset only moves later and every reservation is refused |
| Ledger.RecoveredAtReset | fair/embedded/quota.py:126-146 | the first operation at or after the reset sees an empty pool and a reservation is granted |
| Ledger.GrantedExactly | fair/embedded/quota.py:164-172 | once a due reset is applied, a reservation is granted exactly if the pool is not spent and its count is below the reservation's limit |
| Ledger.StartsAWindow | fair/embedded/quota.py:173-188 | a grant starts a window exactly if the pool had none and a limit and a kind of window are given, and counts one for the pool and one for the application alone |
| Ledger.ReportDecides | fair/embedded/quota.py:225-254 | after a report, a reservation before the next reset is granted exactly if the pool was not spent, the report does not spend it, and both the count so far and the count the report implies are below the reservation's limit |
| Ledger.ReportedReset | fair/embedded/quota.py:233-243 | news replaces the reset of a pool that was not spent, a second report of nothing left only delays it, anything else leaves it |
| Ledger.ReportBounds | fair/embedded/quota.py:225-254 | after a report of `remaining` out of a limit, in every run without refunds until the pool's reset is due, at most `remaining` reservations are granted under that limit |
| Ledger.SpentRefuses | fair/embedded/quota.py:244-254 | after a report of nothing left with a reset known, every reservation before the reset is refused, whatever its limit |
| Ledger.ExhaustedRefuses | fair/embedded/quota.py:256-272 | after an exhaustion is recorded, every reservation before the later of its reset and an established one is refused |
| Windows.StampedRun | fair/embedded/quota.py:126-254 | over every interleaving without resets brought forward, stamps identify windows and later windows have strictly later stamps |
| Windows.StampedRefund | fair/embedded/quota.py:190-214 | a stamped refund is granted exactly while its own window runs, and then touches only that window |
| Windows.SafeExactlyWhenStamped | fair/embedded/quota.py:204-214 | in every continuation a refund stays in its own window if and only if the reservation has a stamp |
| Windows.UnstampedRefundUndercounts | fair/embedded/quota.py:212-223 | an unstamped refund can wipe another application's request out of a later window |
| Windows.SafeExactlyWhenNotBroughtForward | fair/embedded/quota.py:225-272 | after any step that leaves its window running, an open stamped reservation is refunded only from its own window, in every continuation, if and only if the window's reset is not before the stamp |
| Windows.StampTakenOver | fair/embedded/quota.py:256-272 | with the reset before the stamp, the next window can carry that stamp and be refunded |
| Windows.ForwardResetRecurs | fair/embedded/quota.py:23-30 | one such run: a reset brought forward lets one midnight stamp two windows, and a refund then reaches the wrong one |
| Windows.WindowSafety | fair/embedded/quota.py:164-254 | in every run in which no reservation is made under more than a limit, whatever smaller limits applications hold, the net requests charged to a window never exceed it, usage per application adds up to exactly those and to at most `used`, and stamps strictly increase |
| Windows.CountedStep | fair/embedded/quota.py:164-254 | each atomic step keeps those counts |
| Windows.StartIsSafe | fair/embedded/quota.py:73-83 | an empty pool satisfies the counting invariant |
| Dispatch.NeverBeyondTheLimit | fair/embedded/router.py:154-308 | in every run, however many applications share a pool and whenever their requests go out, the requests sent on the reservations of any one window never exceed the limit |
| Dispatch.SoundStep | fair/embedded/router.py:248-290 | every transaction keeps that, and so does sending a request on an open reservation |
| Dispatch.KeptStep | fair/embedded/quota.py:190-223 | what is kept of a window that is over only shrinks, and what is kept of the running one is charged |
| LocalWindows.LocalWindowSafety | fair/embedded/quota.py:385-395 | every run of a governor's own count, with its circuit events mixed in, keeps the same window safety |
| LocalWindows.FreshGovernorIsSafe | fair/embedded/quota.py:341-395 | the same from a new governor: its count keeps within the limit whatever it goes through |
| LocalWindows.MirrorGive | fair/embedded/quota.py:570-607 | a local refund is the ledger's refund of the same stamp |
| LocalWindows.ReportRaises | fair/embedded/quota.py:802-922 | no report or outcome lowers the local count or drops a running window's reset |
| LocalWindows.ReportBoundsTaken | fair/embedded/quota.py:802-922 | in every run until the window is over and without refunds, the own count grants at most what a report leaves, and nothing after a report of nothing left or a refusal for a spent allowance |
| LocalWindows.ReportCounts | fair/embedded/quota.py:813-814 | a report moves the count exactly as far as it must |
| Governor.MemoryQuotaGovernor.Load | fair/embedded/quota.py:378-395 | reading a provider's state first clears a due window and reopens a slot whose lease is over |
| Governor.MemoryQuotaGovernor.BeginReserve | fair/embedded/quota.py:530-536 | refusal exactly when unavailable; an open circuit is claimed with the next token before anything is awaited |
| Governor.MemoryQuotaGovernor.ReserveProbe | fair/embedded/quota.py:491-525 | on its own count or in the shared ledger: refused when either refuses or the ledger fails, the slot then freed; a grant counts one request and returns token and both stamps |
| Governor.MemoryQuotaGovernor.Release | fair/embedded/quota.py:570-607 | the slot is freed only by the token that holds it; a refund goes to the ledger with the pool's stamp, and to the own count only in the reservation's own window |
| Governor.MemoryQuotaGovernor.Observe | fair/embedded/quota.py:802-852 | the whole new state after an observation and what the ledger is told, the settled reset with zero remaining, else the provider's own; no change for one that is not usable |
| Governor.MemoryQuotaGovernor.ObserveAsync | fair/embedded/quota.py:854-904 | the same for the asynchronous order |
| Governor.MemoryQuotaGovernor.Exhaust | fair/embedded/quota.py:906-922 | exhaustion always sets a reset that lies ahead, reopens a half-open circuit and tells the ledger that reset |
| Governor.MemoryQuotaGovernor.Failure | fair/embedded/quota.py:953-965 | a failure of an attempt that does not hold the half-open slot is ignored; otherwise it is counted in the window and may open the circuit |
| Governor.MemoryQuotaGovernor.Success | fair/embedded/quota.py:967-975 | a success closes the circuit unless another attempt holds the half-open slot |
| Governor.MemoryQuotaGovernor.UnblockSecurity | fair/embedded/quota.py:945-951 | the operator's unblock closes the circuit and leaves the old token behind |
| Governor.ObserveOrders | fair/embedded/quota.py:802-904 | `observe` and `observe_async` end in the same state if and only if an exhausted provider has a reset, or the report does not put an earlier reset against FAIR's own |
| Governor.LedgerKeepsLimit | fair/embedded/quota.py:164-188 | what the governor reserves in the ledger is granted exactly below the provider's own limit, counted for pool and application, and starts the provider's kind of window |
| Governor.ZeroReachesLedger | fair/embedded/quota.py:894-904 | a report of nothing left leaves the ledger's pool spent if and only if it was, it knew a reset, or the reset the governor settled on is within a day |
| Governor.RestReachesLedger | fair/embedded/quota.py:894-904 | a report of something left reaches the ledger as the provider made it |
| Probes.ProbeSafety | fair/embedded/quota.py:530-669 | in every interleaving: a half-open slot has a token already handed out and an unfinished owner, tokens are never reused, no finished attempt owns a slot |
| Probes.ProbeSafeStep | fair/embedded/quota.py:530-669 | each step (claim, ledger reply, cancellation, outcome, expiry, operator) keeps that |
| Probes.OneOwner | fair/embedded/quota.py:627-643 | at most one attempt owns a provider's slot |
| Probes.ClosesOnlyByOwner | fair/embedded/quota.py:953-975 | a running half-open slot becomes closed only by its owner's reply or an operator's unblock |
| Probes.ReplyCloses | fair/embedded/quota.py:660-669 | a reply closes the circuit if and only if no running probe of another attempt holds the slot |
| Probes.FinishReleases | fair/embedded/router.py:326-335 | the step that finishes an attempt leaves the slot free of its token |
| Probes.OnlyClaims | fair/embedded/quota.py:627-636 | a slot becomes half-open only by a claim with a new token |
| Probes.SettleKeepsToken | fair/embedded/router.py:207-300 | no ending of a provider call makes a slot half-open or changes its token |
| Probes.OrdersAgreeInEveryRun | fair/embedded/quota.py:802-904 | in every run an exhausted provider has a reset, so `observe` and `observe_async` leave any provider in the same state |
| Probes.AllRecoverStep | fair/embedded/quota.py:385-395 | every step keeps "exhausted implies a reset" |
| Probes.FreshIsSafe | fair/embedded/quota.py:341-373 | a new governor satisfies the ownership invariant |
| Refusals.BarredIsRefused | fair/embedded/quota.py:450-458 | in every interleaving, a provider that is spent, blocked, waiting or tripped is refused until the bar's end, unless an event lifts it: for a spent one another exhaustion with an earlier reset, for a blocked or waiting one the unblock, for a tripped one a success or the unblock |
| Refusals.EndingBars | fair/embedded/router.py:209-279 | a spent allowance bars the provider until the provider's reset or FAIR's window, a billing or key refusal until the unblock, a rate refusal until its end |
| Refusals.ModelsBarNothing | fair/embedded/router.py:215-294 | a refusal about one model or about the request bars nothing |
| Refusals.HearingSpends | fair/embedded/quota.py:854-904 | a heard allowance with nothing left spends the provider until the reset it names, the one known, or FAIR's own |
| Refusals.HearingBarsNothing | fair/embedded/quota.py:854-904 | one with something left spends nothing and moves no reset of a spent provider |
| Refusals.ReservedExactly | fair/embedded/quota.py:450-536 | a reservation gets through exactly if nothing bars the provider, no probe is out, and, counted locally, a request is left; out of an open circuit it takes the slot for its lease and five seconds |
| Refusals.ProbeReopens | fair/embedded/quota.py:391-395 | a probe that fails or whose lease runs out rests the circuit for a cooldown |
| Refusals.HealingFrees | fair/embedded/quota.py:945-975 | a reply that closes the circuit and an unblock start the breaker afresh; the unblock lifts block and wait too |
| Refusals.ClosedExactlyWithoutBurst | fair/embedded/quota.py:953-965 | in every interleaving without success or unblock, a closed circuit is closed at the end exactly if no failure heard was one of at least `circuit_failures` within the circuit's window |
| Refusals.BreakerTrips | fair/embedded/quota.py:953-965 | the failure that completes such a burst, and no other, opens the circuit, and every reservation before a cooldown is over is refused, in every interleaving without success or unblock |
| Backoff.Benches.ThrottleUntil | fair/embedded/quota.py:671-720 | when a throttle ends and what is remembered, for stated, unstated and per-minute waits |
| Backoff.Benches.ThrottleModel | fair/embedded/quota.py:760-767 | a model's bench end never moves earlier |
| Backoff.Benches.ModelAvailable | fair/embedded/quota.py:736-744 | free exactly when no bench of its own runs; only a bench that is over is forgotten |
| Backoff.InFlightOnlyExtends | fair/embedded/quota.py:703-709 | refusals in flight never shorten a bench and never count as strikes |
| Backoff.ThreeSpanAMinute | fair/embedded/quota.py:671-725 | over any history of refusals and answers of all providers and models, three refusals of one key, none in flight during its bench and no answer of that key between them, span at least a minute, whatever waits are stated |
| Backoff.BenchesOnlyGrow | fair/embedded/quota.py:703-720 | without an answer a key's bench never ends earlier, whatever other keys go through |
| Backoff.KeysAreApart | fair/embedded/quota.py:671-725 | what happens to other keys leaves a key's record alone |
| Backoff.EpisodeEscalates | fair/embedded/quota.py:710-718 | refusals each within a minute of the previous bench's end all count, and from the third on earn at least the cooldown |
| Backoff.EarlyStrikes | fair/embedded/quota.py:710-718 | the first refusal trusts a stated wait, a second holds at least a minute |
| Backoff.WaitsAreHeld | fair/embedded/quota.py:693-720 | how long each refusal holds, exactly: a first one the stated wait as stated or a minute, a second at least a minute, a third the cooldown too, one in flight no more than a first |
| PythonSubset.FloorLaw | fair/quality/code_validator.py:70-76 | floor division and remainder are the one pair Python's law allows, for all signs |
| PythonSubset.OneEnding | fair/quality/code_validator.py:306-365 | the unbudgeted meaning is deterministic: a call ends in at most one way |
| OperatorLaws.RangeWalks | fair/quality/code_validator.py:288-300 | the `k`th value of a range is `k` steps from its start |
| OperatorLaws.RangeMembers | fair/quality/code_validator.py:288-300 | a number is in a range exactly if it lies between start and stop and its distance from the start is a multiple of the step |
| OperatorLaws.ArithmeticLaw | fair/quality/code_validator.py:69-75 | addition and multiplication by recursion, subtraction as the inverse, `//` and `%` by Python's law, an error exactly for a divisor of zero |
| OperatorLaws.CompareLaw | fair/quality/code_validator.py:76-83 | numbers compare by value, lists of numbers at the first difference, and a number against a list only for equality |
| OperatorLaws.OneOfThree | fair/quality/code_validator.py:76-83 | of two comparable values exactly one is smaller, or they are alike |
| OperatorLaws.BelowTransitive | fair/quality/code_validator.py:76-83 | the order is transitive |
| OperatorLaws.IndexLaw | fair/quality/code_validator.py:245-249 | an item is found from the front and from the back; every other index raises |
| OperatorLaws.LeastIsFirst | fair/quality/code_validator.py:223-232 | `min` is the first of the least items |
| OperatorLaws.GreatestIsFirst | fair/quality/code_validator.py:223-232 | `max` is the first of the greatest items |
| OperatorLaws.SumLaw | fair/quality/code_validator.py:216-221 | `sum` adds up and splits over joined lists |
| OperatorLaws.SortIsStable | fair/quality/code_validator.py:215-222 | `sorted` keeps items of one value in their order |
| OperatorLaws.UnaryLaw | fair/quality/code_validator.py:256-264 | `not` tells zero and the empty list from the rest, a sign undone is zero |
| OperatorLaws.BuiltinLaw | fair/quality/code_validator.py:210-233 | `abs`, `len`, and `min` and `max` of arguments or of a list |
| OperatorLaws.ChainIsConjunction | fair/quality/code_validator.py:275-284 | `a < b < c` means `a < b and b < c` |
| OperatorLaws.DeMorgan | fair/quality/code_validator.py:268-274 | `not` over `and` and `or` |
| OperatorLaws.ShortCircuits | fair/quality/code_validator.py:265-274 | `and` and `or` as conditional expressions |
| OperatorLaws.TriangleIsComputed | fair/quality/code_validator.py:183-375 | the program adding up `range(n)` returns n(n - 1)/2 for every n up to 1024 within the 4096 steps, and is refused for every larger n |
| OperatorLaws.PowerIsComputed | fair/quality/code_validator.py:325-365 | a `while` program returns the nth power, for every base and exponent |
| OperatorLaws.MemberIsComputed | fair/quality/code_validator.py:325-365 | a program with `continue`, `break` and a loop's `else` tells whether a list holds a value, for every list of numbers |
| CodeValidator.SameValueIsIdentity | fair/quality/code_validator.py:98-105 | `same_value` holds exactly for equal values of equal types |
| CodeValidator.Statements | fair/quality/code_validator.py:306-365 | a run spends no more than its budget, and every value stored or returned is bounded |
| CodeValidator.RunCase | fair/quality/code_validator.py:183-375 | a returned value is bounded |
| CodeValidator.RangeHasCount | fair/quality/code_validator.py:288-300 | the count checked before a range is walked is its length |
| CodeValidator.StatementsStay | fair/quality/code_validator.py:171-179 | a body passing `loop_controls` never lets break or continue out |
| CodeValidator.LooseControls | fair/quality/code_validator.py:171-179 | what is refused is exactly a break or continue that no loop's body holds |
| CodeValidator.AcceptedEnds | fair/quality/code_validator.py:183-375 | every accepted function ends within its budget in a bounded value, in falling off its end, or in a rejection |
| Refinement.RunCaseRefines | fair/quality/code_validator.py:183-375 | a returned value is the one value of the unbudgeted Python meaning; a rejection that is no limit (runtime, type or name) means that meaning raises or leaves the subset; a missing return that it ends without one |
| Refinement.MoreBudget | fair/quality/code_validator.py:195-199 | a larger budget changes no outcome but CODE_OPERATION_LIMIT |
| Refinement.StatementsFollow | fair/quality/code_validator.py:306-365 | statements leave the control outcome and the scope that Python leaves |
| Refinement.ExpressionAgrees | fair/quality/code_validator.py:235-286 | an expression's value is Python's: floor division, negative indices, chained comparison, short circuit |
| Limits.ExpressionIsComputed | fair/quality/code_validator.py:195-286 | an expression at most twenty levels deep with steps enough, none of whose values exceeds the bounds, has exactly Python's value, or is refused because Python has none |
| Machine.Interpreter.Run | fair/quality/code_validator.py:306-365 | the mutable machine does what the specification says, scope and budget included |
| Machine.Interpreter.Evaluate | fair/quality/code_validator.py:235-286 | evaluation by the machine is evaluation by the specification and leaves the scope alone |
| Machine.Interpreter.RunFor | fair/quality/code_validator.py:332-365 | the iterating loop is the specified one, with its iteration bound |
| Machine.RunFunction | fair/quality/code_validator.py:183-375 | a case run on the machine is the specified case under 4096 steps |
| Machine.ValidateFunction | fair/quality/code_validator.py:378-387 | valid exactly when every case returns its expected value, type included; otherwise the failure is that of the parsing or of the first case that finds one |
| Fence.FencedIsOldPattern | fair/quality/json_data.py:24-40 | the linear reader returns a body exactly when the backtracking pattern it replaced matches, and the same body, for every string |
| Fence.OldPatternCaptures | tests/test_json_answers.py:200 | what the old pattern captures, from the order in which a backtracking matcher tries |
| JsonText.UnwrapIsTheSplit | fair/quality/json_data.py:43-80 | a span is lifted out if and only if it is the middle of a split with no bracket outside, opening and closing brackets at its ends, a short wrapper and no sign of a larger structure |
| JsonText.OneSplit | fair/quality/json_data.py:43-66 | a text has at most one such split |
| JsonText.MembersAreMarked | fair/quality/json_data.py:72-77 | a span is taken for a member of a larger structure exactly if a quoted key and colon, or a value and comma, stand before it or a comma and value behind it, whitespace aside; the six characters looked at lose nothing |
| JsonText.DenseCounts | fair/quality/json_data.py:78-79 | every character but whitespace counts towards the wrapper's length |
| JsonText.ReadingIsCanonical | fair/quality/json_data.py:83-106 | the text handed back parses to the same value and reads as itself, bare |
| JsonText.BareIsUntouched | fair/quality/json_data.py:83-92 | an answer that already is strict JSON is read as it stands |
| Transport.TransportRelaxes | fair/providers/schema_dialects.py:73-106 | on the fragment without `$ref`, refused keywords and items split between `prefixItems` and a demanding `items`, whatever the author's schema accepts every dialect's copy accepts |
| Transport.TransportTwice | fair/providers/schema_dialects.py:73-106 | the copy of a copy is the copy |
| Transport.CopyMeansTheSame | fair/providers/schema_dialects.py:73-106 | where a schema uses only what the dialect keeps, `const` included, an answer is valid under the copy if and only if it is valid under the author's schema |
| Transport.ConstBesideEnum | fair/providers/schema_dialects.py:87-95 | a `const` beside an `enum` is dropped, which leaves the accepted answers the same if and only if every value of the `enum` is the `const` |
| Transport.NodesAreCopied | fair/providers/schema_dialects.py:56-106 | at every place of a schema the copy has a node exactly if the schema has, with exactly the keywords the dialect keeps (`additionalProperties` for OpenAI strict, not for Gemini), plain values unchanged, and an `enum` of one where only a `const` stood |
| Transport.PrefixItemsBreakIt | fair/providers/schema_dialects.py:98-104 | outside it the copy can refuse what the author accepts, for any meaning of the other keywords under which that answer is accepted |
| Splitting.JoinSplit | fair/providers/live.py:611-615 | splitting at a separator loses nothing |
| Splitting.SplitJoin | fair/quality/grounding.py:11 | the pieces found are the pieces joined |
| Streaming.StreamLines | fair/providers/live.py:586-621 | however the bytes are cut, the lines are those of the whole text, the read is refused for size only beyond the cap and as malformed only when the text does not decode; before a refusal exactly the complete lines of the chunks before it were handed on |
| Streaming.HandedOnBegins | fair/providers/live.py:614-616 | lines handed on begin the lines of any text that goes on from there |
| Streaming.TakeLines | fair/providers/live.py:614-616 | each complete line is taken off once and in order |
| Streaming.WrittenLinesAreRead | fair/providers/live.py:611-621 | lines written with either line ending are the lines read |
| Assembly.Assemble | fair/providers/live.py:472-520 | the loop assembles the specified envelope, or stops at the first chunk that is unreadable or names another model |
| Assembly.AssembledExactly | fair/providers/live.py:472-520 | an envelope is assembled if and only if every chunk can be read and no two name different models; it names that model and its content is all pieces joined in order |
| Assembly.CutsDoNotMatter | fair/providers/live.py:509-511 | cutting a piece of content into two chunks, anywhere in a stream, changes nothing in what is assembled |
| Assembly.WrittenIsTaken | fair/providers/live.py:482-512 | a chunk written with any of its parts is taken for what it says: what it gives replaces what was given before, its piece goes behind the content, what it leaves out changes nothing |
| Assembly.ReadableMeans | fair/providers/live.py:497-506 | more than one choice, a choice that is no object and a delta that calls a tool are refused |
| Assembly.FalsyMeans | fair/providers/live.py:497-506 | the values Python takes for false |
| Parts.MergeParts | fair/providers/live.py:1462-1480 | the loop builds the merged list, or stops where joining a text to something else raises |
| Parts.MergeKeepsTheAnswer | fair/providers/live.py:1462-1480 | on well-formed parts merging keeps the answer, the thinking, order and well-formedness and leaves no two neighbours to merge |
| Parts.NothingToMerge | fair/providers/live.py:1462-1480 | parts with nothing to merge are left alone, so merging twice is merging once |
| Parts.MergedIsAccepted | fair/providers/live.py:1545-1562 | the envelope accepts the merged parts if and only if each part is well formed, or joins a neighbour, or lacks only its text and is joined by the next, there are one to 4096 runs, and what is spoken is not blank |
| Parts.MergedIsWellFormed | fair/providers/live.py:1549-1557 | the merged parts are all well formed if and only if each part received is, or joins, or lacks only its text and is joined |
| Parts.MergeKeepsWords | fair/providers/live.py:1462-1480 | for any parts at all, merging keeps what is spoken and makes one part of each run |
| Parts.NothingIsLost | fair/providers/live.py:1465-1469 | nothing a part declares is lost if and only if every part that joins declares what its neighbour does |
| Parts.ASignatureIsLost | fair/providers/live.py:1475-1478 | of two well-formed parts with different signatures the second signature is dropped |
| Parts.MergingRepairs | fair/providers/live.py:1476-1477 | a part without text, refused alone, is let through when the next joins it |
| Parts.MergingHidesAFlag | fair/providers/live.py:1475-1477 | a numeric thought flag is let through behind a true boolean |
| Pointer.ResolvePointer | fair/quality/grounding.py:6-26 | the loop resolves to what walking the tokens gives, errors included |
| Pointer.ResolvesExactly | fair/quality/grounding.py:6-26 | a pointer resolves to a value if and only if it is the writing (RFC 6901, section 3) of a path within the limits that leads there |
| Pointer.TwoReplacesAreOneScan | fair/quality/grounding.py:17 | the two replacements are one decoding from left to right (RFC 6901, section 4), on every token |
| Pointer.OrderMatters | fair/quality/grounding.py:17 | in the other order a token would name another key |
| Pointer.EscapeUnescape | fair/quality/grounding.py:15-17 | a well-escaped token is the writing of the key it names |
| Pointer.IndexIsDecimal | fair/quality/grounding.py:20-23 | an index token is the decimal of its number |
| Pointer.GroundedResult | fair/quality/grounding.py:29-41 | there is an answer exactly when every field resolves, and each answered value comes from the source and pointer recorded beside it |
| Pointer.TextsMeans | fair/quality/grounding.py:31 | of sources with one id the last one's text is read |
| Claims.FactIndex | fair/quality/claims.py:70-86 | the index holds for each key exactly the supplied facts in order, and evidence is refused exactly when a document is unusable or there are more than 200 facts |
| Claims.RecordsAreTheFacts | fair/quality/claims.py:70-86 | a key's records are exactly the facts supplied under it, each with the place it stands at |
| Claims.ParseClaims | fair/quality/claims.py:89-96 | answers by id, refused exactly for a repeated id |
| Claims.Judge | fair/quality/claims.py:108-144 | each status and reason in terms of the records and the answer |
| Claims.ValidateClaims | fair/quality/claims.py:99-153 | true if and only if exactly the requested claims are answered, each once, with the one value of all matching facts, citing exactly those facts once; false exactly with reasons, each of which a report or an unrequested claim gives |
| Claims.ReasonsTellWhy | fair/quality/claims.py:108-137 | each reason given says of the evidence and the answer exactly what it names |
| Claims.ComparableIgnoresOrderOnly | fair/quality/claims.py:156-169 | two responses compare equal if and only if they differ in nothing but the order of claims and citations |
| Claims.ReferencesAreOrdered | fair/quality/claims.py:163 | references compare by source id and pointer text, and different references never tie |
| Lists.SortedOnce | fair/quality/claims.py:163 | a list sorts in one way only |
| RefusedSizes.SizeMemory.RefuseKnownOversize | fair/providers/live.py:432-449 | held back exactly when at least as large, both ways, as a live refused size; other models are untouched |
| RefusedSizes.SizeMemory.RememberRefusedSize | fair/providers/live.py:451-470 | the whole new memory after a refusal |
| RefusedSizes.RunIsSound | fair/providers/live.py:432-470 | in every run the sizes kept are an antichain, at most eight, ordered by expiry, each refused by the provider and kept an hour from then |
| RefusedSizes.HeldBackWithReason | fair/providers/live.py:432-449 | whatever is held back dominates a size refused within the hour before |
| RefusedSizes.HeldForTheHour | fair/providers/live.py:451-470 | while no slot is missing, a kept size holds back until its hour is over, whatever else is refused |
| RefusedSizes.HeldForItsHourExactly | fair/providers/live.py:451-470 | a refused size is held back for its hour, in every continuation that evicts nothing, if and only if no live size covered it then or one that lasts as long did |
| RefusedSizes.HeldForItsHourInEveryRun | fair/providers/live.py:451-470 | the same after any run of requests and refusals |
| RefusedSizes.CoveredRefusalsAreForgottenEarly | fair/providers/live.py:461-467 | one such run: a covered refusal is forgotten within its hour |
| Routing.Solver.Solve | fair/embedded/router.py:457-622 | every run ends; no route is attempted twice; both budgets hold; an answer is called accepted only with an accepted primary attempt and, where required, a passed independent check, and is the first usable one; each primary attempt was on the best route offered that was left; a run without an answer says truthfully why |
| Routing.Solver.RunCrossCheck | fair/embedded/router.py:361-455 | a check passes only with an accepted, agreeing answer of an independent route; routes are passed over only when they gave nothing to compare; it is unavailable only when none is left or the budget is spent |
| Routing.Solver.TryNext | fair/embedded/router.py:487-522 | the best offered route that is left is attempted, and an attempt that cannot be returned leaves nothing usable behind |
| Routing.Solver.Try | fair/embedded/router.py:494-522 | a reserved route is marked and, when really attempted, logged; a lost reservation is marked only |
| Routing.Solver.Closes | fair/embedded/router.py:561-582 | the reason reported is the reason the search stopped for |
| Routing.FirstIsPreferred | fair/embedded/router.py:490-493 | every registered route ranked before the chosen one had been tried |
| Routing.DispositionMeans | fair/embedded/router.py:243-325 | what each reply comes to; only an acceptable answer is accepted |
| Routing.ReturnableMeans | fair/embedded/router.py:38-53 | an answer that is not accepted is handed back exactly if the caller takes unverified answers and the gate found nothing against it |
| Routing.BudgetsMean | fair/embedded/router.py:522-527 | a judged answer spends the one budget, a failure to answer the other, a capability mismatch neither |
| Routing.SilentMeans | fair/embedded/router.py:428-435 | a verifier gives nothing to compare exactly if no text of its model came back |
| Routing.CheckReasonMeans | fair/embedded/router.py:555-562 | each state of a check has its own reason |
| Routing.RanOutMeans | fair/embedded/router.py:576-582 | which reason a search that ran out is told |
| Routing.ComparedMeans | fair/embedded/router.py:436-453 | a check passes exactly with an accepted answer that agrees |
| Routing.IndependenceMeans | fair/quality/consensus.py:10-22 | independence goes both ways and leaves no normalised name in common |
| Selector.Candidates | fair/embedded/selector.py:17-63 | the loops collect, score and sort what the specification collects, scores and sorts |
| Selector.BestFirst | fair/embedded/selector.py:17-63 | the candidates are exactly the fitting registered routes not tried, each before all with a lower score |
| Selector.CandidatesAreFit | fair/embedded/selector.py:17-44 | a route is a candidate if and only if it is registered, its provider admitted, adapted, available and allowed data as private as the request's, and its model active, not tried, not benched, eligible, capable and large enough |
| Selector.LessKeepsCandidates | fair/embedded/selector.py:28-42 | asking for less, in privacy, capabilities, context or output, never costs a candidate |
| Selector.BetterComesFirst | fair/embedded/selector.py:45-63 | with weights that are not negative, a route no worse in anything and better in something that counts comes first |
| Selector.ShareLeft | fair/embedded/selector.py:53-54 | what is left of an allowance as a share of it; a half where there is no limit |
| Selector.RegistrationOrderDoesNotMatter | fair/embedded/selector.py:61-63 | the order in which providers are registered changes nothing |
| Selector.BeforeIsAnOrder | fair/embedded/selector.py:61-63 | score, provider and model name order all candidates, with no ties |
| Routing.IndependentOnly | fair/quality/consensus.py:10-22 | only routes differing in provider, model and group may verify |
| Engine.Evaluate | fair/quality/engine.py:42-202 | the step-by-step gate computes the specified report |
| Engine.AcceptedExactly | fair/quality/engine.py:42-220 | an answer is acceptable if and only if it is whole, in shape, honestly cited, free of contradiction, matches its contract, is covered by a validator, not withheld by a source policy, and reaches the minimum |
| Engine.CitationsAreChecked | fair/quality/engine.py:68-76 | no citation reason exactly when every quote stands in the source it names |
| Engine.ContradictionsAreFound | fair/quality/engine.py:77-82 | no contradiction exactly when no subject and predicate is given two values |
| Engine.QuotesMeans | fair/quality/engine.py:68-76 | a quote stands in a text exactly if the text is something, the quote and something |
| Engine.CoveredMeans | fair/quality/engine.py:151-166 | what no validator covers |
| Engine.ShapeMeans | fair/quality/engine.py:54-65 | a document in prose has the shape asked for only where a document itself was asked for |
| Engine.AcceptedReport | fair/quality/engine.py:91-150 | the score and the verification state of every acceptable report |
| Cache.MemoryCache.Get | fair/embedded/cache.py:81-137 | the answer and the slots left, for every way a look-up can end |
| Cache.MemoryCache.Put | fair/embedded/cache.py:139-161 | an accepted answer becomes the most recently used and the bound holds; anything else changes nothing |
| Cache.MemoryCache.Clear | fair/embedded/cache.py:163-167 | exactly the entries whose key begins with the client's name and a colon are removed |
| Cache.OutputIsAcceptedAgain | fair/embedded/router.py:56-69 | the text handed to the caller for an accepted arithmetic or reference answer is accepted again, with the same score |
| Cache.StoredAnswersAreServed | fair/embedded/cache.py:81-161 | after any run, a stored accepted answer is served, word for word, on every admitted look-up that finds it current, while fewer other keys than the bound are used and nothing replaces or clears it |
| Cache.AcceptedAnswersAreServed | fair/embedded/cache.py:81-161 | what the gate accepted of a cacheable request is, once stored, the text the next look-up within its time gets, with no more asked of the digest than that one request |
| Cache.EntriesSurvive | fair/embedded/cache.py:139-161 | least recently used is what goes: an entry stays while fewer other keys than the bound are used since |
| Cache.HitsRenew | fair/embedded/cache.py:81-122 | a look-up that is answered makes its entry the most recently used |
| Cache.RunIsSound | fair/embedded/cache.py:81-167 | every run of look-ups, stores and clears keeps the bound, keys apart, and every slot acceptable for each request in play that it would answer |
| Cache.HitExactlyWhenCurrent | fair/embedded/cache.py:81-137 | a request is answered from the cache if and only if a current entry is stored under its key and its route is admitted; judging again never drops it |
| Cache.PutKeepsSound | fair/embedded/cache.py:139-161 | a stored answer is acceptable for every request in play that it would answer |
| Cache.KeysTellRequestsApart | fair/embedded/cache.py:55-79 | among requests on which the digest has no collision, two share a key if and only if they differ in nothing but cache mode and time |
| Cache.SomeDigestTellsApart | fair/embedded/cache.py:76-79 | whatever finite set of requests is in play, some digest meets that |
| Cache.ClearTakes | fair/embedded/cache.py:163-165 | an entry is cleared if and only if its client is the named one or continues that name with a colon |
| Cache.WhatIsCached | fair/embedded/cache.py:55-79 | requests that bypass, want fresh, grounded or cross-checked answers, bring evidence or a policy, stake much or have no fixed check neither read nor write the cache; any other accepted answer is stored |
| Cache.HowLongItLasts | fair/embedded/cache.py:88-97 | an entry answers no longer than the cache's time, the time its request asked for and the time the asking request asks for |
| Performance.PerformanceRegistry.Record | fair/embedded/performance.py:35-70 | whatever history a row stood for, it then stands for that history and the new attempt: counts, sum, windows of twenty |
| Performance.RowsAreRecomputed | fair/embedded/performance.py:35-70 | after any sequence of records on all routes, each row is what its own route's whole history recomputes to |
| Performance.HistoryMore | fair/embedded/performance.py:35-70 | what one more attempt adds: only a judged answer with a score is a sample, and only a judged answer can hallucinate |
| Performance.BaselineIsTheEarlierMean | fair/embedded/performance.py:72-75 | the drift baseline is the mean of every score but the last twenty |
| Performance.DriftNeedsForty | fair/embedded/performance.py:72-85 | drift is called if and only if there are forty scores and the last twenty average the set points below the others |
| Performance.ScoresInRange | fair/embedded/performance.py:116-132 | quality stays in [0, 1] and reliability strictly inside (0, 1), with or without drift and prior |
| Performance.ScoresAreMeans | fair/embedded/performance.py:116-132 | quality is the mean of all scores and five of the prior, the recent ones deciding once drifted, the prior never exceeded; reliability the mean of outcomes and five halves, quota refusals left out |
| Performance.UnknownRoutes | fair/embedded/performance.py:117-119 | a route nothing is known of has the prior or a half |
| Performance.QuotaRefusalsAreNeutral | fair/embedded/performance.py:130-131 | a quota refusal moves neither score |
| Performance.OutagesCost | fair/embedded/performance.py:130-131 | an outage lowers reliability and leaves quality alone |

## Left out

- Ledger.NextWindowReset: Pacific midnights are a parameter, calendars and daylight saving being no part of the model; UTC days and hours are exact.
- Governor.MemoryQuotaGovernor.Release: a call reads the clock once, where the source may read it again for the ledger.
- Matching.Matcher.Augment: hashes and origins are walked in an arbitrary order, of which the source's sorted one is a case.
- Probes.ProbeSafety: request counts are not in it; they are the subject of `Windows` and `LocalWindows`.
- Dispatch.NeverBeyondTheLimit: that an ending which gives a reservation back comes before any request was sent is the router's rule and a premise here; what adapters send is not in the model.
- LocalWindows.LocalWindowSafety: covers a governor without a shared ledger, where its own count is the one enforced.
- CodeValidator.AcceptedEnds: of `parse_function` it asks for the loop controls and the number of parameters; the other static checks only refuse more trees.
- Refinement.RunCaseRefines: claims nothing for the three codes of limits (`Limits.ExpressionIsComputed` does, for expressions); the None of a bare `return` is no value of the meaning.
- Transport.TransportRelaxes: is stated one way and on a fragment. Outside it the relaxation may still hold; that is inclusion of one schema in another, and not claimed.
- Streaming.StreamLines: the UTF-8 decoder is any byte-wise decoder.
- Claims.ValidateClaims: starts from parsed documents and responses; the length limits of single values belong to that parsing.
- Routing.Solver.Solve: what the selector offers, attempts, agreement and the stop flag are arbitrary; diagnostic events and the cache look-up before it are not in it.
- Engine.Evaluate: verdicts of the grounded and code contracts are parameters here and proved in their own modules; the validation fingerprint is left out.
- Cache.HitExactlyWhenCurrent: the digest is taken to have no collision on the requests of a run.
- Performance.ScoresInRange: the confidence of an observation, a real power of an age, is left out.
- Rows of providers are values in a map, so two references to one state are not told apart.
- HTTP, TLS, credentials, headers and retries of the provider adapters, and fair/security.
- SQLite, its locking and WAL: each ledger method is one atomic step, and a failed one is a step that changes nothing.
- `ast.parse`, `re`, `json.loads`, `jsonschema`, SHA-256: trees, an abstract strict parser and abstract digests stand for them.
- Floating-point rounding: clocks, scores and weights are reals.
- Name and identity checks of the quota interfaces (`_identity` and mismatch errors), which only refuse arguments.
- The service, console, tools, configuration, batch files, task profiler and prompt texts: interface and field checks that would add only easy members.
- `SourceReviewRegistry.evaluate`, admission policies and usage reports: filters and listings over the counted values.
