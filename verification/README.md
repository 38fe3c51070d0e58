# Ledger service: a verified model

This project models a Go service that keeps client money on a TigerBeetle ledger: corporate wallets, card wallets,
safeguarded cash and a card-settlement payable, moved by six kinds of transfer (top-up, withdrawal, card allocation,
card return, authorization, authorization increment). The service holds no money itself. What it promises is that its
transfer recipes, account checks and retry logic keep global properties of the ledger, with any number of requests in
flight, on any number of instances, with calls whose request or response is lost.

Check it with `dafny verify dfyconfig.toml` (Dafny 4.11).

## How the model is built

- `Ledger.dfy` is the ledger as a state and two commands, with the semantics of the deterministic test ledger, plus the
  ledger's own expiry of pending transfers. `SharedLedger.dfy` is the same ledger as an object updating its tables.
- `AccountModel.dfy` and `Recipes.dfy` are the account and transfer recipes.
- `LedgerInvariant.dfy` states what every reachable ledger satisfies; `LedgerSteps.dfy` proves that each command keeps it.
- `Requests.dfy` gives every operation as a program of atomic steps: cache probe, account lookup, cache fill, risk
  decision, clock reading, transfer lookup, create, recovery lookup, response. `RequestFacts.dfy` says what a request
  knows at each point and why nobody else can falsify it; `RequestSteps.dfy` proves each step.
- `Runs.dfy` interleaves any number of these programs over one ledger. An event sequence resolves every choice: which
  request moves, which ledger call loses its request or its response, what a clock reads, when a caller cancels, when a
  hold expires. A run is `Run(INITIAL, events)` from an empty ledger, so a theorem for all `events` is a theorem for all
  interleavings. Instances provision themselves inside the run.
- `History.dfy` looks back over a run: which step brought a request to where it is, which submission stored a transfer.
- `MoneyTheorems.dfy`, `Replay.dfy`, `OutcomeTheorems.dfy`, `Lifetimes.dfy` and `Progress.dfy` hold the results over runs.
- `Promises.dfy` says what the service promises, independently of the program: the answer to each request (`Expected`) and
  its effect on the ledger (`Effect`), on the request's own fields and one ledger state, with codes, flags, HTTP numbers and
  limits written out. `Decisions.dfy` proves every step of the program against it, and `Linearization.dfy` every answer of
  every run: under any interleaving an answer that is not an interruption is the promised one, with the promised effect, at
  one moment of the request. `WrittenOut.dfy` spells out what the ledger holds, field by field and on whose request.
- `Undisturbed.dfy` proves that requests are served and instances come up: the runs that give each promised answer exist.
- `Service.dfy` has the operations again as the sequential code they are, over ledger and cache objects, with other
  parties running before every call; each method is proved to give the answer its step program gives when its calls
  meet the fates an arbitrary script prescribes, truthfully, and as promised for a ledger that one of its steps saw.
- `MetadataCache.dfy`, `Health.dfy` and `Admission.dfy` are the cache ring, the in-flight call tracker and the admission
  gate, as objects and as interleaved systems. `Timeouts.dfy` has the 64-bit and 32-bit duration arithmetic.

## Findings

- An increment converts its remaining seconds to 32 bits before it compares them with the original's timeout. With a
  clock behind the ledger's timestamp and a very long timeout the conversion drops the high bits: with the longest
  accepted timeout and a clock one second behind, the increment asks for timeout zero, that is, for a hold that the
  ledger never releases (`Timeouts.ClockBehindLosesTimeout`). `Timeouts.DerivedTimeoutWhen` and
  `Timeouts.DerivedTimeoutWhenWrapped` say for every clock reading exactly when the derived timeout is right. The hold can
  be released at all if and only if the conversion leaves some seconds. It lasts as long as its original if and only if
  the conversion leaves none, or the increment is stamped no earlier than the original and the seconds left, counted from
  its stamp, reach the original's expiry (`Timeouts.CoverageIsExact`; over whole runs, as what the ledger can still do,
  `Lifetimes.IncrementLifetimeIsExact`). In particular it lasts with any clock that is not ahead of the stamp, however far
  behind the original, as long as the conversion loses nothing or leaves at least the original's timeout
  (`Timeouts.HarmlessConversionCovers`). `Lifetimes.IncrementsOutliveTheirOriginal` holds for the runs whose readings
  satisfy the exact condition for an increment stamped next (`Lifetimes.TimelyIsExact`).
- docs/ledger-model.md:92-96 says that retries stay safe without extending the original hold. Of the authorization's own
  transfer, and of a retried increment, that is true: both are stored for good and a retry changes nothing
  (`MoneyTheorems.LedgerIsAppendOnly`, `OutcomeTheorems.StoredIDIsInert`). Read as a bound on the increment's hold, derived
  from the original's expiry, it is not. For any clock, the increment outlasts the original if and only if the conversion
  leaves no seconds, or the increment is stamped later than the original and the seconds left, counted from its stamp, go
  past the original's expiry (`Timeouts.ExtensionIsExact`). With a clock reading between the original's stamp and the
  increment's, rounding up to whole seconds and the lag between reading and stamp extend the hold by less than one second
  plus that lag (`Timeouts.IncrementOutlivesOriginal`), unless the increment is stamped at the very nanosecond read and
  that is a whole number of seconds after the original's timestamp (`Timeouts.ExtensionWhenOrdered`). An hour's hold
  incremented one nanosecond after it was stamped ends one nanosecond late (`Timeouts.HourIsExtended`).
- README.md:206-208 of the service calls the ledger stalled when its oldest call exceeds the threshold; the code already
  does so when the call is exactly as old as the threshold (`Health.UnreadyAtThreshold`). The model follows the code.

## Model

| member | source | states |
|---|---|---|
| AccountModel.MetadataInvertsRecipe | internal/service/service.go:274-289 | reading an account yields a kind and parent if and only if the account equals, on every immutable field, the recipe of that kind and parent at an ID the kind may use |
| AccountModel.MetadataOfDefinition | internal/service/service.go:274-289 | the reading depends on the immutable fields only, so balances and timestamps never change it |
| SharedLedger.Tables.CreateAccount | internal/service/service_test.go:585-613 | in-place account creation: the whole new state and result, existing IDs compared field by field |
| SharedLedger.Tables.CreateTransfer | internal/service/service_test.go:615-704 | in-place transfer creation: failed IDs, comparison with a stored transfer, the checks in order, burnt IDs, both rows updated |
| SharedLedger.Tables.Release | README.md:267 | the ledger's release of an expired hold gives back both pending amounts once |
| SharedLedger.Tables.Obey | internal/service/service.go:16-23 | whatever another well-behaved party does keeps the ledger invariant and only grows the ledger |
| LedgerInvariant.RecipeStable | internal/service/operations.go:29-39 | a transfer that was a legal recipe over checked accounts stays one however the ledger grows before it is submitted |
| LedgerInvariant.RecipeEndpoints | internal/service/operations.go:112-137 | every recipe joins two different stored accounts whose kinds its code fixes |
| LedgerSteps.CommitJournalled | internal/service/service_test.go:686-697 | after a commit each balance field of each row still is the sum of the stored transfers touching it |
| LedgerSteps.CommitSolvent | internal/service/operations.go:32-40 | a commit keeps cash equal to the wallets' total and settlement credits equal to the cards' holds |
| LedgerSteps.CommitFamily | internal/service/operations.go:123-138 | one commit moves a client family's posted total by exactly its top-up or withdrawal, so allocations, returns and holds by nothing |
| LedgerSteps.CommitInv | internal/service/service_test.go:686-704 | committing an accepted recipe keeps the whole ledger invariant |
| LedgerSteps.WithdrawalFitsCash | internal/service/operations.go:58-66 | a withdrawal that fits the wallet also fits the cash account's own constraint |
| LedgerSteps.UnusedIDIsJudged | internal/service/service_test.go:657-684 | in any state: exactly when an unused ID is rejected for a missing account or an overflow, and that a rejection other than an overflow burns the ID and nothing else |
| LedgerSteps.UsedIDIsCompared | internal/service/service_test.go:615-656 | in any state: a used ID changes nothing, reports a timestamp exactly for an equal payload, and blames a field that differs, a timeout before all but the flags |
| LedgerSteps.AccountsCompareExactly | internal/service/service_test.go:585-613 | an existing account is the same exactly when every immutable field is; a blamed field differs, and only the same account reports its timestamp |
| LedgerSteps.OnlyFundsReject | internal/service/service_test.go:657-684 | a recipe is rejected if and only if its debited wallet lacks available funds; missing accounts, overflow and the cash constraint never decide |
| LedgerSteps.CreateTransferInv | internal/service/service_test.go:615-704 | submitting any recipe, new, repeated or rejected, keeps the invariant and only grows the ledger |
| LedgerSteps.CreateAccountInv | internal/service/service_test.go:585-613 | opening any legal account keeps the invariant, including the new family's empty balance |
| LedgerSteps.CreateAccountOutcome | internal/service/service.go:132-157 | "created" or "exists" if and only if the ledger then holds exactly the submitted definition, with its timestamp |
| LedgerSteps.ExpiredHoldIsDue | README.md:267 | a live hold past its timeout can always be released: both rows still count it |
| LedgerSteps.ReleaseInv | README.md:267 | releasing an expired hold keeps the invariant and forgets nothing |
| RequestFacts.NewIsValid | internal/service/service.go:62-74 | every accepted configuration yields a timeout rounded up by less than a second to whole seconds that fit the stored field, with ledger and limit unchanged |
| RequestFacts.FactsStable | internal/service/service.go:250-268 | what a request has learned at any point survives every step of every other request |
| RequestSteps.RememberSound | internal/service/service.go:242-248 | remembering a created, existing or read account keeps every cache entry true |
| RequestSteps.AskedIsRecipe | internal/service/operations.go:17-139 | a well-formed request over accounts of the checked kinds builds a legal recipe |
| RequestSteps.IncrementIsRecipe | internal/service/operations.go:475-487 | the transfer of an increment is a legal recipe in the group of the stored original |
| RequestSteps.OpenIsAuthorization | internal/service/operations.go:408-417 | among stored transfers the increment's check accepts exactly the authorizations, and their debit account is a card |
| RequestSteps.ExpiredIsNotSubmitted | internal/service/operations.go:460-469 | a new increment is submitted exactly while the original has life left on the instance's clock |
| RequestSteps.CompareIsExact | internal/service/service_test.go:621-656 | the ledger says "exists" exactly for an equal payload, and blames the timeout whenever only the timeout differs |
| RequestSteps.WantedIsUnique | internal/service/operations.go:560-576 | two transfers a request can mean differ at most in timestamp, and for an increment in timeout |
| RequestSteps.FindAuthorizationFacts | internal/service/operations.go:236-298 | the lookup after a risk decline approves only the stored transfer asked for, reports a conflict only for another payload, and otherwise declines an amount over the limit |
| RequestSteps.FindIncrementFacts | internal/service/operations.go:578-635 | the same for an earlier increment, whose original is a stored authorization |
| RequestSteps.RejectionsAreTold | internal/service/service.go:369-380 | outcome, code and HTTP status of every ledger rejection, those included that no run produces |
| RequestSteps.SubmitFacts | internal/service/operations.go:141-194 | every ledger verdict on a submission is turned into a truthful answer or into timeout recovery |
| RequestSteps.RecoverFacts | internal/service/operations.go:503-524 | recovery from a timeout difference approves exactly an otherwise equal increment and reports a conflict for any other |
| RequestSteps.AvailableIsNonNegative | internal/service/service.go:196-211 | the available balance computed for any kind of account within its limits is not negative, so the one answered and the one of every reachable row are not |
| RequestSteps.StepKeepsAll | internal/service/operations.go:381-558 | any step of any request keeps the ledger invariant, grows the ledger, keeps the cache true and keeps the request's facts |
| Runs.RunKeeps | internal/service/service.go:16-23 | every run, from any good state, keeps all invariants of ledger, caches and requests in flight |
| Runs.Reachable | internal/service/service.go:77-101 | from an empty ledger, through provisioning, every reachable state is good |
| MoneyTheorems.ClientMoneyIsBacked | internal/service/operations.go:32-40 | solvency in every reachable state: cash equals the sum of all wallets' posted balances, settlement's posted balance is zero |
| MoneyTheorems.ClientMoneyIsConserved | internal/service/operations.go:112-138 | per client: the wallet plus its cards hold its top-ups minus its withdrawals |
| MoneyTheorems.BalancesAreTheJournal | internal/service/service_test.go:686-697 | all four balance fields of every row are journal sums, debits equal credits, settlement's pending credits equal the cards' holds |
| MoneyTheorems.NoOverdraft | internal/service/service.go:196-211 | reported balances are the journal's: posted is credits minus debits (cash: exchanged), available takes off the live holds, and available is never negative, so live holds plus debits never exceed credits |
| MoneyTheorems.OnlyFundsDecide | internal/service/service.go:369-380 | whatever any request submits in any run, only lack of funds or an earlier use of the ID can stop it |
| MoneyTheorems.MoneyMovesOnRequest | internal/service/operations.go:141-194 | money moves only on request: each stored transfer of each reachable ledger is exactly what some arrived, well-formed request with that ID asked for |
| MoneyTheorems.NothingOverLimitIsSubmitted | internal/service/operations.go:368-379 | no instance ever submits a hold above its automatic approval limit |
| MoneyTheorems.IncrementsShareTheirAuthorization | internal/service/operations.go:475-487 | every stored increment names a stored authorization with the same parties, fingerprint and pending flag |
| MoneyTheorems.OnlyAuthorizationsAreIncrementable | internal/service/operations.go:401-424 | no transfer of another operation, increments included, can be incremented; every authorization can |
| MoneyTheorems.CardParentsExist | internal/service/service.go:112-128 | every stored card's parent is a stored corporate wallet |
| MoneyTheorems.ServingInstancesShareLedger | internal/service/service.go:77-101 | instances that got past provisioning share the ledger number of the cash account |
| MoneyTheorems.LedgerIsAppendOnly | docs/ledger-model.md:106-117 | stored transfers, account definitions and failed IDs are permanent; an ID is never both stored and failed |
| Replay.RetryStep | internal/service/operations.go:431-511 | one step of a retry over a stored ID changes nothing in the ledger and can only lead to success, conflict or interruption |
| OutcomeTheorems.MalformedIsRefused | internal/service/operations.go:381-398 | in every run a malformed request, by its own fields, is refused as invalid and does nothing else |
| OutcomeTheorems.SuccessIsRetriable | internal/service/operations.go:112-121 | only validated requests succeed: the accounts have the required kinds and parent, an increment's original is an authorization |
| OutcomeTheorems.SuccessIsStored | internal/service/operations.go:169-181 | posted or approved implies the stored transfer with the request's ID, recipe and reported timestamp, for good |
| OutcomeTheorems.SuccessesAgree | docs/ledger-model.md:101-117 | an ID never succeeds for two payloads: any two successes under one ID, on any instances, are of equal requests and report the same transfer |
| OutcomeTheorems.RejectionIsFinal | internal/service/service_test.go:618-620 | once the ledger rejected an ID, even if the answer was lost, it is never stored and no later request of any kind succeeds with it |
| OutcomeTheorems.RejectionBurnsID | internal/service/service_test.go:674-684 | a ledger rejection that was answered has burnt the ID |
| OutcomeTheorems.StoredIDIsDecided | internal/service/operations.go:503-524 | exact conflict detection: over a stored ID a validated uninterrupted request succeeds if and only if its recipe matches, else reports a conflict |
| OutcomeTheorems.StoredIDIsInert | internal/service/operations.go:578-635 | such a request never changes the ledger |
| OutcomeTheorems.ReplayIsStable | internal/service/operations.go:231-276 | a retry of a success succeeds with the same outcome, timestamp and expiry, at any clock, under any risk limit, on any instance |
| OutcomeTheorems.ReportedExpiryIsStored | internal/service/operations.go:339-340 | the expiry told to the caller is the one later computed from the stored transfer |
| OutcomeTheorems.CacheIsTransparent | internal/service/service.go:250-268 | for every cache size and history an account check leads where an uncached lookup would |
| OutcomeTheorems.MetadataNeverChanges | internal/service/cache.go:9-11 | what a lookup finds about an account it finds ever after, so nothing cached goes stale |
| Decisions.AcceptedIs | internal/config/config.go:32-65 | which settings are accepted, in numbers |
| Decisions.FormedIs | internal/service/operations.go:17-27 | which requests are invalid, on their own fields: an ID is zero or beyond 2^128 - 2, an account is 1 or 2 (a balance may be read of those), the amount is zero, an increment names itself, kind and parent do not fit |
| Decisions.MatchesIs | internal/service/operations.go:29-39 | the transfer a request wants, field by field: literal code, parties, amount, fingerprint, group, flags, ledger number, timeout |
| Decisions.StepDecides | internal/service/operations.go:381-558 | every undisturbed step, in any state it may be taken in, leads to exactly the promised answer with the promised effect, or leaves the ledger alone |
| Decisions.DisturbancesAreReported | internal/service/operations.go:368-379 | any other step is a cancelled risk evaluation, which ends the request without touching the ledger, or a lost ledger call, which ends it with the call's effect or none |
| Decisions.HoldSecondsAreLeast | internal/service/service.go:62-74 | an authorization's timeout is the least whole number of seconds covering the configured one |
| Linearization.AnswersAreLinearizable | internal/service/operations.go:141-558 | linearizability: under any interleaving every answer that is not an interruption is the promised answer, with the promised effect, for the ledger at one step of the request and the clock it read, on the settings its instance was booted with; no other step of the request changes the ledger |
| Linearization.ChangesAreEffects | internal/service/operations.go:141-194 | whatever a request changes in the ledger is the whole promised effect of its promised answer, even if the answer was lost |
| Linearization.ChangesOnce | internal/service/operations.go:503-524 | no request changes the ledger twice, nor after its answer is settled |
| Linearization.CancelledIsFinal | internal/service/operations.go:368-379 | a request cancelled during risk evaluation ends so for good and has submitted nothing, before or after |
| Linearization.LostCallIsFinal | internal/service/operations.go:503-511 | a request whose ledger call is lost reports that for good; the ledger shows nothing of the call or its whole effect |
| Linearization.InvalidExactlyIf | internal/service/operations.go:91-121 | the answer is "invalid" if and only if the request is malformed or its card belongs to another wallet |
| Linearization.ReportedBalanceWasTheJournals | internal/service/service.go:160-194 | a reported balance is the row, and the journal sums, of one moment between the request's arrival and its answer |
| WrittenOut.StoredTransferIsSpelledOut | internal/service/operations.go:112-138 | every stored transfer is of the cash account's and both parties' ledger, carries no unused field, and is field by field what one arrived request asked for; an authorization's timeout is the least covering the configured one |
| WrittenOut.SuccessIsSpelledOut | internal/service/operations.go:216-229 | a success reports, ever after, a stored transfer that is field by field what that very request asked for, with its timestamp and expiry |
| WrittenOut.StoredAccountIsSpelledOut | internal/service/service.go:103-158 | every stored account is one of the four kinds in every immutable field, a card's parent being a stored corporate wallet, and some request asked for it |
| History.PointWasReached | internal/service/operations.go:381-558 | a request that has begun got where it is by one of its own steps, at one position of the run |
| History.TransferWasSubmitted | internal/service/operations.go:141-194 | every stored transfer entered the ledger by one request's submission, stamped just after the ledger's clock |
| History.InstanceWasBooted | internal/service/service.go:48-75 | every instance runs on the configuration, and a cache of the size, of the settings it was booted with |
| History.StepsDescend | internal/service/operations.go:381-558 | a request never comes back to a point as far from its answer as an earlier one, so it reads its clock and submits at most once |
| Lifetimes.TimelyIsExact | internal/service/operations.go:460-487 | a reading leads to a submission exactly before the expiry, and the increment stamped next lasts as long as its original exactly when the reading is timely, a hold without timeout lasting for ever |
| Lifetimes.HarmlessIsTimely | internal/service/operations.go:460-473 | every reading not ahead of the ledger's next timestamp, however far behind, is timely unless the 32-bit conversion does harm |
| Lifetimes.IncrementLifetimeIsExact | internal/service/operations.go:460-487 | for any run and any clocks: the request that submitted a stored increment had read its clock before the original's expiry and derived the timeout from that; some continuation releases the hold if and only if the reading left seconds, and one does before the original's expiry if and only if those seconds, from the increment's stamp, do not reach it |
| Lifetimes.ReleasableExactlyIf | README.md:267 | some continuation of a run releases a pending transfer before a given moment if and only if it has a timeout that ends before then |
| Lifetimes.EndsExactlyIf | README.md:267 | some continuation of a run releases a pending transfer if and only if it has a timeout |
| Lifetimes.IncrementsOutliveTheirOriginal | internal/service/operations.go:460-487 | with timely readings no increment ends before the authorization it belongs to expires, and no continuation of the run releases it before then |
| Undisturbed.UndisturbedOutcome | internal/service/operations.go:141-194 | any request left alone gets the promised answer with the promised effect, whatever its instance's cache holds |
| Undisturbed.SucceedsExactlyIf | internal/service/operations.go:231-361 | with an unused ID that is a success if and only if nothing is wrong with the request, available funds cover it, and limit and remaining life allow it |
| Undisturbed.UndisturbedProvisioning | internal/service/service.go:77-101 | provisioning alone stores both system accounts, in every field, unless the cash account has another ledger number |
| Undisturbed.RequestsAreServed | internal/service/operations.go:17-361 | in every reachable world, on every serving instance, the run in which a request is left alone ends with the promised answer and effect, and with the account it looked up last in the cache |
| Undisturbed.InstancesComeUp | internal/service/service.go:48-101 | an instance booted with accepted settings and left alone serves if and only if the cash account is absent or of its ledger number |
| Progress.StepAdvances | internal/service/operations.go:381-558 | every step brings a request closer to its answer |
| Progress.RequestsAreAnswered | internal/service/operations.go:196-361 | a request that gets twelve turns has answered, whatever else happens |
| Timeouts.RoundingIsExact | internal/config/config.go:37-40 | every accepted timeout is rounded up without overflow or truncation, and both expiry computations agree |
| Timeouts.DerivedTimeoutIsExact | internal/service/operations.go:460-473 | with a clock at or after the original, the derived timeout is the least number of seconds reaching the original's expiry, within 1 and the original's |
| Timeouts.IncrementOutlivesOriginal | internal/service/operations.go:460-487 | the increment ends no earlier than the original and less than a second plus the stamping lag later |
| Timeouts.ExtensionIsExact | internal/service/operations.go:460-487 | for any clock reading and stamp, exactly when an increment outlasts its original |
| Timeouts.ExtensionWhenOrdered | internal/service/operations.go:460-487 | with a reading between the two stamps it does unless it is stamped as read, a whole number of seconds after the original |
| Timeouts.HourIsExtended | docs/ledger-model.md:92-96 | a concrete extension by one nanosecond |
| Timeouts.DerivedTimeoutIsRead | internal/service/operations.go:470-473 | for any clock before the expiry, the derived timeout is the lesser of the seconds the conversions leave and the original's |
| Timeouts.CoverageIsExact | internal/service/operations.go:460-487 | for any clock reading and stamp, exactly when the increment lasts as long as its original, a hold without timeout lasting for ever |
| Timeouts.HarmlessConversionCovers | internal/service/operations.go:460-487 | with a clock not ahead of the stamp a conversion that loses nothing, or leaves the original's timeout, is enough |
| Timeouts.DerivedTimeoutWhen | internal/service/operations.go:470-473 | for any clock before the expiry, exactly when the 32-bit conversion leaves the derived timeout right |
| Timeouts.DerivedTimeoutWhenWrapped | internal/service/operations.go:470-473 | the same where the 64-bit sum itself wraps |
| Timeouts.ClockBehindLosesTimeout | internal/service/operations.go:470-473 | the concrete failure: longest timeout, clock one second behind, derived timeout zero |
| MetadataCache.StoreRefinesQueue | internal/service/cache.go:41-61 | the ring is a bounded first-in first-out queue: a store enqueues a new ID, evicting the oldest when full, and leaves a known one in place |
| MetadataCache.StoreThenLoad | internal/service/cache.go:31-61 | after a store each queued ID loads its latest value and every other ID nothing |
| MetadataCache.NewEntrySurvives | internal/service/cache.go:41-61 | through any further stores, the ID itself stored again included, a new entry stays cached if and only if fewer than `limit` of them bring in an absent ID: a re-store neither evicts nor prolongs |
| MetadataCache.CachedExactlyIf | internal/service/cache.go:41-61 | after any sequence of stores an ID that was absent is cached if and only if one of them brought it in anew and fewer than `limit` new IDs followed that one |
| MetadataCache.Cache.Put | internal/service/cache.go:41-61 | the in-place store has exactly that effect and keeps map and ring consistent |
| MetadataCache.Cache.Get | internal/service/cache.go:31-39 | the in-place load |
| MetadataCache.Cache.Len | internal/service/cache.go:63-67 | the size is the queue's length and never exceeds the limit |
| MetadataCache.Cache.constructor | internal/service/cache.go:20-29 | an empty cache; a negative limit disables it |
| Health.OldestDecides | internal/service/health.go:106-124 | the oldest start alone decides readiness and is zero exactly when nothing is in flight |
| Health.UnreadyAtThreshold | internal/service/health.go:118-123 | the tracker turns unready at the moment its oldest call becomes as old as the threshold |
| Health.CallTracker.Begin | internal/service/health.go:66-79 | a begun call joins the active ones and the tracked oldest start stays exact |
| Health.CallTracker.Complete | internal/service/health.go:81-98 | a completed call leaves, the tracked oldest start stays exact, only a success is remembered as such |
| Health.CallTracker.FindOldest | internal/service/health.go:126-135 | a scan in any order restores the exact minimum |
| Health.CallTracker.Report | internal/service/health.go:106-124 | ready if and only if every call in flight is younger than the threshold; the reported age is the greatest |
| Admission.Controller.Enter | internal/httpapi/admission.go:20-49 | stalled, admitted or overloaded, and the request becomes a holder exactly on admission |
| Admission.Controller.Leave | internal/httpapi/admission.go:35-38 | the deferred release: only a request that holds a slot runs it, frees its own and holds none afterwards, without blocking |
| Admission.GateIsExact | internal/httpapi/admission.go:20-49 | a request is stalled exactly when its check saw a too old call, overloaded exactly when all slots are held, and admitted otherwise, whatever others do in between |
| Admission.LoadIsBounded | internal/httpapi/admission.go:32-39 | ledger calls in flight never exceed slots held, which are those of the running handlers and never exceed the limit |
| Admission.FinishNeverBlocks | internal/httpapi/admission.go:35-38 | a running handler always finds its slot to give back |
| Admission.SlotsAreReturned | internal/httpapi/admission.go:33-39 | when no handler runs, every slot is free and no ledger call is in flight |
| Admission.CallsAreTimed | internal/service/health.go:66-79 | every call in flight is tracked with the time at which the handler making it began it |
| ServiceObject.Service.constructor | internal/service/service.go:48-75 | a new instance with its rounded timeout and empty cache is ready to provision |
| ServiceObject.Service.EnsureSystemAccounts | internal/service/service.go:77-101 | success leaves both system accounts stored for this instance's ledger; the answer is the promised one |
| ServiceObject.Service.CreateAccount | internal/service/service.go:103-158 | the answer is its program's, the promised one and true: the ledger holds the requested definition, or the ID is taken |
| ServiceObject.Service.Balance | internal/service/service.go:160-194 | the balance read is its program's and the promised one, with a non-negative available balance |
| ServiceObject.Service.RequireAccountKind | internal/service/service.go:250-268 | cache hit, lookup and fill lead to exactly the three ends of the check |
| ServiceObject.Service.RememberAccount | internal/service/service.go:242-248 | the cache fill after a create or a balance read |
| ServiceObject.Service.TopUp | internal/service/operations.go:17-41 | sequential top-up under interference: ends where its program ends, on the fates its turns prescribe, truthfully, and with the answer and effect promised for a ledger one of its steps saw |
| ServiceObject.Service.Withdraw | internal/service/operations.go:43-67 | the same for a withdrawal |
| ServiceObject.Service.MoveCardFunds | internal/service/operations.go:91-139 | the same for an allocation or a return |
| ServiceObject.Service.ExecuteTransaction | internal/service/operations.go:141-194 | submission and reading of the result |
| ServiceObject.Service.Authorize | internal/service/operations.go:196-361 | the same for an authorization, on both the submit and the risk-declined path |
| ServiceObject.Service.IncrementAuthorization | internal/service/operations.go:381-558 | the same for an increment |
| ServiceObject.Service.LookupExistingIncrement | internal/service/operations.go:578-635 | the recovery lookup of a declined or expired retry |
| ServiceObject.Service.SubmitIncrement | internal/service/operations.go:488-546 | submission with recovery from a drifted timeout |

## Left out

- HTTP routing, JSON decoding, panic recovery and rendering of errors to status codes outside the service's own answers.
- The TigerBeetle client adapter, batching, replication and the real cluster; the ledger is its command semantics.
- Parsing and trimming of identifiers: requests start from parsed IDs, and a malformed one is zero.
- The SHA-256 merchant fingerprint: requests carry the fingerprint, so a conflict is claimed only when fingerprints differ.
- Validation of the merchant ID string: blank, padded or over-long merchant IDs are refused before the modelled part.
- Logging, metrics, and the echo fields of responses such as the hold transfer ID and the evaluation time.
- Integer width of balances, amounts sums, ledger timestamps and call numbers: they are unbounded here; request amounts are 64-bit.
- Saturation of the age of a ledger call at 292 years, which no threshold can observe.
- The zero clock reading: call start times are non-zero, as Go's clock never reads the zero time.
- Locks: each cache, tracker and ledger operation is one atomic step, as its mutex makes it.
- The risk delay itself: a risk evaluation either is cancelled or compares the amount with the limit.
- Finality of risk declines: nothing records them, so nothing is claimed about a later attempt.
- Capture and void, which the service does not implement.
- ServiceObject.Service.Yield: other parties act through legal commands and truthful cache fills; that the service's own requests are such parties is what Runs.RunKeeps proves.
- Linearization.AnswersAreLinearizable: provisioning creates its two accounts one after the other, so only its answer is placed at one moment; its effect when left alone is Undisturbed.UndisturbedProvisioning.
