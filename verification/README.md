# Snapfall: the money path, verified

A Dafny model of the parts of Snapfall that move or account for money, and proofs about them:
the daemon's approval lifecycle, reservation ledger, reconciliation and advances; the payment
sidecar, its store, the paid-API seller and the self-hosted relay; the two canonical encodings of
an intent; the dashboard's incremental chain scan, spend total and burn sizing; and the amount
parsers. `dafny verify dfyconfig.toml` checks everything.

## How it is modelled

- Code that updates fields, maps or arrays step by step is a class or a method with loops, proved
  against a function of the state (`Approval`/`Lifecycle`, `Budget`/`BudgetLedger`, `PaymentStore`,
  `PaymentService`, `Seller`, `SelfRelay`, `FloatScan`, `SpendTally`, `Advances`).
- Concurrency is a state machine beside it (`ApprovalRuns`, `BudgetRuns`, `PaymentRuns`,
  `SellerRuns`, `FloatSnapshots`, `AdvanceRuns`): a Go critical section, or a stretch between two
  awaits, is one step; so are a clock tick, a failed append, a crash and a boot. Its steps are the
  same functions the methods are proved against. Results hold over every run.
- What the outside world answers (the clock, the log's appends, the chain, the facilitator, Circle,
  the JSON-RPC provider) is a parameter or a nondeterministic step.
- Hashes are functions assumed not to collide where a result needs it; request ids inherit this.
  Signatures are opaque. Instants are integers of nanoseconds; printing them is a parameter assumed
  injective on the instants it distinguishes. Text is a sequence of Unicode scalar values.

## Findings

Properties that fail somewhere, each with the condition under which they hold:

- The ledger keeps an expiry at second precision (`daemon/internal/budget/budget.go:439-442`) while
  execution compares nanoseconds, and purchases expire at a sub-second instant
  (`daemon/internal/purchasing/purchasing.go:159`). For up to a second a hold can be swept and its
  payment still executed: exactly for the intents a policy and the ledger accept whose expiry is not on
  a whole second, nor rounds to the zero time (`SweeperSafety.SweeperSafeExactly`).
- The day's figure follows the org of a job's first hold (`daemon/internal/budget/budget.go:763-786`):
  the cap is kept exactly when no job is used by two orgs (`BudgetSharing.CapKeptExactly`). A job's own
  budget is kept either way.
- The chain answers for a vault job, not for a request (`daemon/internal/advancing/advancing.go:280-295`):
  an interrupted advance is recorded executed once a re-proposal on its job lands. Records are true
  exactly when no job is drawn on twice (`AdvanceSharing.TruthfulExactly`).
- A crash between `approval.requested` and the map insert revives a request memory never held; the
  replay law names that case (`ApprovalSafety.ReplayExact`).
- A delivered payment whose record fails to persist once is stored FAILED, which reconciliation reads
  as nothing settled (`PaymentRuns.DeliveredMayReadFailed`); exactly such a step, or a throw after the
  signature, breaks the meaning of FAILED (`PaymentRuns.FailedKeptExactly`).
- A decision changes memory before its append (`daemon/internal/approval/lifecycle.go:591-602`): when
  that fails the decider is told so and the payment starts all the same, with no decision in the log
  (`DecisionHistory.UnloggedApprovalStarts`); the log has it exactly where an append succeeded
  (`DecisionHistory.StartsAreApproved`).
- `usdcMicros` and `principalMicros` accept a sign in the fraction, so "1.+5" reads as 1.05; and
  `formatMicros` output reads back exactly above minus 100000 micros (`Amounts`).
- `PAYMENT_NOT_FOUND` proves nothing will be signed exactly when no call for the intent is between
  its entry and its write-ahead record (`PaymentRuns.NotFoundExactly`).

Where the code and its own comments disagree the model follows the code. The comment on the claim
oracle (`daemon/internal/budget/budget.go:225-230`, `daemon/cmd/snapfall/main.go:1129-1137`) holds that
no third interleaving of sweep and execution exists; a sub-second expiry is one. The comment on
`usdcMicros` says exact; the code is exact only without signs. The comment on `resolveExecutedClaim`
says the chain answers definitively; it answers for the job.

## Model

| member | source | states |
|---|---|---|
| `Approval.ReplayIdempotent` | daemon/internal/approval/lifecycle.go:744-806 | folding the log over what the fold already gave changes nothing: recovering twice is recovering once, for every log |
| `Approval.ReplayForgets` | daemon/internal/approval/lifecycle.go:770-804 | on every request the log opens, the fold forgets the map it started from |
| `Approval.AdmissionIsExact` | daemon/internal/approval/lifecycle.go:618-687 | the gates admit exactly an approved, unexpired, unexecuted request of the active policy version, presented with its own hash in an unfrozen scope; admission claims that request alone, and un-claiming restores the map |
| `Approval.OpenedStanding` | daemon/internal/approval/lifecycle.go:402-419 | a request opens approved by the policy engine with nobody waiting exactly when auto-approved, and otherwise pending, undecided and waited for; bound to its hash and window, unclaimed |
| `Approval.DecisionsByName` | daemon/internal/approval/lifecycle.go:559-604 | an approval, a rejection and a request for an alternative each make of a pending request, and of its replay, the state they are named for, under the decider's name, and change nothing else |
| `Approval.NothingDecided` | daemon/internal/approval/lifecycle.go:568-592 | a repetition by the same decider and a decision on a closed request change nothing, told apart; a pending request past its window expires instead |
| `Lifecycle.Lifecycle.Submit` | daemon/internal/approval/lifecycle.go:307-463 | a request opens if and only if every check and append passes, as its own verdict says: approved by the engine, or pending, undecided and waited for; what it leaves in the log, that the two gates are taken org first and each released exactly once before the owner is notified, that a frozen scope burns no nonce, and that a request is visible only after it and its hold are durable |
| `Lifecycle.Lifecycle.SubmitAdvance` | daemon/internal/approval/lifecycle.go:493-540 | how it ends, obstacle by obstacle; an opened advance is always pending, with no gate and no hold, and its nonce is burnt exactly when claimed |
| `Lifecycle.Lifecycle.Decide` | daemon/internal/approval/lifecycle.go:546-604 | the decision step in every branch, memory changed before its append and kept when that fails; an applied decision makes the request what it is named for |
| `Lifecycle.Lifecycle.Execute` | daemon/internal/approval/lifecycle.go:618-728 | one executor start, with the presented intent, exactly when admitted and its claim is durable; a failed claim append leaves the request as it was |
| `Lifecycle.Lifecycle.Recover` | daemon/internal/approval/lifecycle.go:744-806 | the boot loop computes the fold of the log, and fails exactly on an unreadable event |
| `Lifecycle.Lifecycle.DecisionSignal` | daemon/internal/approval/lifecycle.go:100-145 | a waiter blocks exactly on a request this process opened and nobody has decided |
| `Lifecycle.Lifecycle.UnlockGates` | daemon/internal/approval/lifecycle.go:363-373 | each gate still held is released once, in reverse order, and then neither is held |
| `LifecycleSteps.SubmitIsItsSteps` | daemon/internal/approval/lifecycle.go:307-463 | for every ending of a payment's Submit (frozen, replayed, badly linked, unaudited, denied, not held, not logged, opened) the machine's steps for it lead to the log, request map and nonces the method's contract states, and change nothing else but holds |
| `LifecycleSteps.SubmitRefines` | daemon/internal/approval/lifecycle.go:307-463 | the Submit method, run beside a machine state it matches, ends matching a state the machine reaches |
| `LifecycleSteps.AdvanceRefines` | daemon/internal/approval/lifecycle.go:493-540 | the same of SubmitAdvance, for every ending |
| `LifecycleSteps.DecideRefines` | daemon/internal/approval/lifecycle.go:546-604 | the same of Decide: one step, the same reply |
| `LifecycleSteps.ExecuteIsItsSteps` | daemon/internal/approval/lifecycle.go:618-728 | for every ending of an Execute (each refusal, a claim that would not persist, an executor that fails or succeeds, its outcome recorded or not) the machine's steps for it lead to the method's request map, log and single start, whatever the kill switch said on entry |
| `LifecycleSteps.ExecuteRefines` | daemon/internal/approval/lifecycle.go:618-728 | the Execute method, run beside a machine state it matches, grants included, ends matching a state the machine reaches |
| `ApprovalInvariant.StepKeeps` | daemon/internal/approval/lifecycle.go:307-806 | every step of intake, decision, execution, sweeping, the clock, a crash and a boot keeps the invariant relating memory, the log, threads in flight and executor starts |
| `ApprovalInvariant.GateFacts` | daemon/internal/approval/lifecycle.go:618-687 | a refused gate changes nothing but an elapsed request's state; a passed one claims exactly its request with every gate true of the bound intent |
| `ApprovalSafety.ExactlyOnce` | daemon/internal/approval/lifecycle.go:618-728 | over any run with any number of crashes, each request's executor starts at most once, with the very intent bound at intake, after its claim is durable and after one state of the run passed every gate; no request is ever claimed twice in the log |
| `ApprovalSafety.ReplayExact` | daemon/internal/approval/lifecycle.go:744-806 | at any crash point, a request is executable after the restart if and only if its approval is durable, its claim is not, it was approved in the lost memory or logged and about to appear there, and it is within its window and policy version; no such request had started |
| `ApprovalSafety.RestartRevealsUnseenRequest` | daemon/internal/approval/lifecycle.go:430-446 | the second case of that law is real: a crash between the append of approval.requested and the map insert reveals an executable request the lost memory had never held |
| `ApprovalSafety.HoldsComeFirst` | daemon/internal/approval/lifecycle.go:406-428 | in every log of every run, a payment's budget.reserved precedes its approval.requested and its payment.executing |
| `DecisionHistory.StartsAreApproved` | daemon/internal/approval/lifecycle.go:546-728 | every execution that starts in any run was approved by the policy engine for an intent begun as auto-approved, or by a named decider who found it pending within its window; that decision is in the log exactly where the append of one succeeded |
| `DecisionHistory.LoggedExactly` | daemon/internal/approval/lifecycle.go:591-602 | the log holds a decision exactly where one applied and its append succeeded |
| `DecisionHistory.UnloggedApprovalStarts` | daemon/internal/approval/lifecycle.go:591-602 | for every openable payment and decider, a run in which the decision's append fails and the payment starts all the same, with no decision in the log |
| `DecisionHistory.RefusalsStand` | daemon/internal/approval/lifecycle.go:559-604 | a request reads rejected, or as one an alternative was asked for, exactly while the applied decision of that name stands: durably if appended, else until the next crash |
| `LifecycleSteps.AlternativeLinks` | daemon/internal/approval/lifecycle.go:330-340 | an alternative's link is accepted exactly for a request on the same job whose applied and unlost decision asked for an alternative |
| `SweeperSafety.SweeperSafe` | daemon/internal/budget/budget.go:618-660 | in every interleaving, a hold released as expired belongs to a request whose executor neither ran before nor runs after, for intents that expire on a whole second; what the ledger refuses to hold, or holds without an expiry, is never released so |
| `SweeperSafety.SweeperSafeExactly` | daemon/internal/budget/budget.go:439-442 | an intent can be released as expired and still be paid if and only if its expiry is not on a whole second, some policy lets it through, the ledger would hold it, and its expiry to the second is not the zero time: the ledger keeps seconds, the lifecycle compares nanoseconds |
| `SweeperSafety.SweptThenPaid` | daemon/cmd/snapfall/main.go:602-612 | for every such intent, a run that sweeps its hold and then executes it |
| `SweeperSafety.Unclaimed` | daemon/cmd/snapfall/main.go:1147-1155 | what the in-process claim oracle's no means: no execution holds the request, none ever started, the log has no claim |
| `SweeperSafety.GoneKeeps` | daemon/internal/approval/lifecycle.go:655-660 | an expired and never-claimed request stays so under every step |
| `ApprovalRuns.CoversExactly` | daemon/internal/freeze/freeze.go:204-216 | the kill switch covers an intent exactly through an engaged scope of its org, job or agent, an empty name none |
| `ApprovalHash.CanonicalWorldIsCollisionless` | daemon/internal/approval/hash.go:213-215 | with a digest that does not collide, nor its cut to the request id, the approval hash and the request id are injective in every field of the intent, which the run-wide results assume |
| `JsonText.EncodersAgree` | daemon/internal/approval/hash.go:107-126 | for every Unicode string, Go's encoding after the separator rewrite is what JSON.stringify produces |
| `JsonText.NormalizeLineSeparators` | daemon/internal/approval/hash.go:132-165 | the index loop over maximal backslash runs computes the escape-by-escape rewrite |
| `JsonText.RunParity` | daemon/internal/approval/hash.go:127-158 | the parity of a backslash run decides: the odd one before a spelled separator becomes the separator, any other run passes through |
| `JsonText.BlindReplacementIsWrong` | daemon/internal/approval/hash.go:119-124 | replacing every spelled escape without counting backslashes is wrong on text that spells one |
| `JsonText.BodyRead` | sidecar/src/h3.ts:51-68 | a reader inverts the escaping of every string |
| `JsonText.JsonString` | daemon/internal/approval/hash.go:109-126 | the daemon's string text is the sidecar's |
| `Canonical.CanonicalInternal` | daemon/internal/approval/hash.go:184-209 | reflecting over the fields, sorting their names and emitting builds the object of all twenty fields in name order |
| `Canonical.CanonicalObject` | daemon/internal/approval/hash.go:184-209 | the reflect, sort and emit loops over any distinct names |
| `Canonical.NamesSort` | daemon/internal/approval/hash.go:195-195 | sorting the declared field names gives one order, each name once |
| `Canonical.ObjectRead` | daemon/internal/approval/hash.go:184-209 | a parser returns the fields of every canonical object |
| `Canonical.InternalBinds` | daemon/internal/approval/hash.go:184-215 | two intents have the same full form if and only if they agree in every field |
| `Canonical.WireBinds` | daemon/internal/approval/hash.go:236-270 | two intents have the same wire form if and only if its fourteen fields agree, the expiry to the second |
| `Canonical.InternalTells` | daemon/internal/approval/hash.go:184-209 | a reader of the full form finds under each of the twenty names the field of that name |
| `Canonical.WireTells` | daemon/internal/approval/hash.go:236-270 | a reader of the wire form finds under each of the fourteen names its field: the payee as merchant, the probed URL as resource |
| `SidecarIntent.WireFormsAgree` | sidecar/src/h3.ts:51-68 | the daemon's wire form and the sidecar's canonicalIntent of the body the daemon sends are equal character for character |
| `SidecarIntent.CanonicalWire` | daemon/internal/approval/hash.go:257-270 | the daemon's loop computes what the sidecar recomputes, whatever the decision and creation time |
| `SidecarIntent.SidecarBinds` | sidecar/src/h3.ts:45-68 | canonicalIntent distinguishes exactly the fourteen fields, and not decision or createdAt |
| `SidecarIntent.SidecarTells` | sidecar/src/h3.ts:45-68 | a reader of canonicalIntent finds under each name the property of that name |
| `Ordering.SortedUnique` | daemon/internal/approval/hash.go:195-195 | members that all rank apart have one sorted arrangement, whatever sort produced it |
| `BudgetLedger.Ledger.Reserve` | daemon/internal/budget/budget.go:414-483 | one critical section, durable before visible, idempotent by request, refused on a closed hold; memory stays what the log rebuilds |
| `BudgetLedger.Ledger.Commit` | daemon/internal/budget/budget.go:497-543 | first close wins; a duplicate commit is a no-op and a commit after a release is reported |
| `BudgetLedger.Ledger.Release` | daemon/internal/budget/budget.go:555-589 | a closed hold is left alone; a failed append leaves the hold standing |
| `BudgetLedger.Ledger.Spend` | daemon/internal/budget/budget.go:758-795 | the loop over the entries, in any order, yields the saturated job figure and the day's figure |
| `BudgetLedger.Ledger.ClaimExecution` | daemon/internal/approval/lifecycle.go:692-702 | the lifecycle's claim lands in the shared log, and memory is still what the log rebuilds |
| `BudgetLedger.Ledger.RefreshClaims` | daemon/internal/budget/budget.go:664-702 | afterwards memory carries exactly the logged claims, and nothing else has changed |
| `BudgetLedger.Ledger.Sweep` | daemon/internal/budget/budget.go:618-660 | releases exactly the open holds past their expiry with no claim in the log and none in the executor's memory, one event each; a failed append stops it having released only such holds; no hold changes otherwise |
| `BudgetLedger.Ledger.Unresolved` | daemon/internal/budget/budget.go:708-740 | exactly the open claimed holds, each once, oldest first and by request within a millisecond |
| `BudgetLedger.Ledger.Recover` | daemon/internal/budget/budget.go:289-296 | the fold into fresh state is what memory held |
| `BudgetLedger.RestartKeepsDead` | daemon/internal/budget/budget.go:397-405 | after a restart the same holds are provably dead, but for those that expired by the epoch, which read back without an expiry |
| `Budget.OpenableExactly` | daemon/cmd/snapfall/main.go:1072-1101 | a new request gets a hold for exactly the intents some policy lets through and the wiring layer and the ledger accept: a payment of a bounded positive amount at or above its ceiling, with a job and an expiry |
| `Budget.RestartKeepsSpend` | daemon/internal/budget/budget.go:319-393 | a restart leaves both spend figures of every job as they were |
| `Budget.ReserveDurable` | daemon/internal/budget/budget.go:446-474 | a reservation keeps memory equal to what the log rebuilds |
| `Budget.TotalUpdate` | daemon/internal/budget/budget.go:758-795 | writing one entry changes a figure by the difference of its worths |
| `Budget.ReserveRaises` | daemon/internal/budget/budget.go:758-795 | a hold taken raises every figure of its own job, org and day by what it holds, and no other |
| `Budget.CommitMoves` | daemon/internal/budget/budget.go:497-543 | a commit moves those figures from what was held to what was paid |
| `Budget.ReleaseLowers` | daemon/internal/budget/budget.go:555-589 | a release gives those figures back what was held |
| `Budget.OnlyTheseMove` | daemon/internal/budget/budget.go:414-589 | and nothing else moves any: when each of the three takes effect, and that otherwise every entry stays |
| `Budget.ClosedVerdicts` | daemon/internal/budget/budget.go:420-427 | the first close wins: what a commit, a release and a reserve answer for a closed hold |
| `Budget.DayBounds` | daemon/internal/policy/policy.go:165-171 | the window begins at a midnight UTC no more than a day before now |
| `BudgetRuns.NeverOversubscribed` | daemon/internal/approval/lifecycle.go:341-463 | under any interleaving of concurrent intake, claims, closes, ticks and restarts that rebuild memory from the log, no job's open holds and committed spend exceed its budget, shared or not; and where each job belongs to one org no org's for the UTC day exceed the cap, midnight included |
| `BudgetRuns.RestartsChangeNoFigure` | daemon/internal/budget/budget.go:289-296 | at any moment of any run, rebuilding memory from the log tells the next intake of every job the same two figures |
| `BudgetRuns.FiguresAreTheHistory` | daemon/internal/budget/budget.go:739-795 | conservation: in every state of every run each figure is the sum, over the steps so far, of the amounts intents held, the differences commits paid and the holds released, each counted for its own job, org and day |
| `BudgetRuns.NoDeadlock` | daemon/internal/approval/lifecycle.go:341-373 | a chain of waiting intakes has at most two links and ends at one that can move |
| `BudgetRuns.RunnableMoves` | daemon/internal/budget/budget.go:816-844 | a thread that is not waiting has an enabled step |
| `BudgetRuns.GatesKeep` | daemon/internal/budget/budget.go:816-860 | in every step each gate is held by exactly the thread inside it |
| `BudgetRuns.PassedFits` | daemon/internal/policy/policy.go:258-300 | a verdict other than deny, on the saturated figures the ledger reports, means the amount fits the job's true one, and the day's where the ledger charges the intent's own org |
| `Policy.ReasonsExplain` | daemon/internal/policy/policy.go:221-370 | the reason given is a rule the intent breaks, or what sends it to its owner |
| `BudgetRuns.HoldKeeps` | daemon/cmd/snapfall/main.go:1072-1121 | placing the hold of an intent that passed keeps the figure of every job, or of every org, within its limit, because no other thread is inside its gate |
| `BudgetSharing.CapKeptExactly` | daemon/internal/budget/budget.go:758-790 | the daily cap is kept in every run if and only if no job is used by two orgs |
| `BudgetSharing.SharedOverspends` | daemon/internal/budget/budget.go:763-786 | for every job shared by two orgs, a run that spends twelve under a cap of ten |
| `Reconcile.ReconcileUnresolved` | daemon/cmd/snapfall/main.go:1232-1349 | the loop leaves every claimed hold exactly as its own answer and append decide and touches nothing else; a hold nobody else closed is listed exactly when it still stands, and every standing one is listed; with no lane every hold stands |
| `Reconcile.ResolveHold` | daemon/cmd/snapfall/main.go:1257-1347 | one turn of the loop, every answer |
| `Reconcile.ClosesSoundly` | daemon/internal/h3/h3.go:270-290 | an open hold is released exactly on not-found, FAILED or EXPIRED, committed exactly on DELIVERED or SETTLED with an amount that is the decimal print of an int64, at that amount, and otherwise stands and is listed |
| `Reconcile.AtomicMicrosExact` | daemon/internal/h3/h3.go:422-442 | an amount is read exactly when it is the decimal print of a non-negative int64 |
| `Release.ReleasedMeansUnsigned` | daemon/cmd/snapfall/main.go:1258-1279 | a release on the sidecar's answer concerns an intent nothing was signed for, given that throws precede signatures and deliveries persist; on a record nothing ever will be for its nonce, re-entry and restarts included; on not-found nothing will be, exactly when no call for it is still probing |
| `Release.DeliveredCommits` | daemon/cmd/snapfall/main.go:1280-1325 | a delivered record's answer commits the hold at the amount it says was paid |
| `Release.CommittedMeansDelivered` | daemon/internal/h3/h3.go:270-276 | a commit on the sidecar's answer is of a payment some call of the run delivered |
| `PaymentStore.PaymentStore.Load` | sidecar/src/store.ts:46-73 | an absent file is a fresh start, anything but a record array fails, an array loads as a map in its order |
| `PaymentStore.PaymentStore.Persist` | sidecar/src/store.ts:75-83 | wherever it stops, the file is the old document or the whole new one |
| `PaymentStore.PaymentStore.Upsert` | sidecar/src/store.ts:90-93 | the map is written at once, the file only by a complete persist |
| `PaymentStore.PaymentStore.GetById` | sidecar/src/store.ts:85-88 | finds a record with the id exactly when one exists |
| `PaymentStore.RestartAfter` | sidecar/src/store.ts:46-94 | a process that stops anywhere inside a write, the first over no file included, and starts again holds the old records or all the new ones |
| `PaymentStore.LoadedIsWritten` | sidecar/src/store.ts:73-82 | what a map wrote, it loads |
| `PaymentStore.PutGet` | sidecar/src/store.ts:90-92 | setting a key reads back there and nowhere else |
| `PaymentService.Service.Begin` | sidecar/src/service.ts:257-344 | the stretch up to the probe: every reply, that it proceeds exactly on an authorization for this very payment, and that only a call that goes on takes its nonce |
| `PaymentService.ProceedsExactly` | sidecar/src/service.ts:257-344 | a call goes on to sign if and only if its nonce is unrecorded and idle and its token authentic, issued for this very hash, decision, amount and expiry, unexpired and approving |
| `PaymentService.RecordedReplies` | sidecar/src/service.ts:280-299 | a recorded nonce is refused on other terms, replayed once ended and unresolved until then, state by state |
| `PaymentService.FreshRefusals` | sidecar/src/service.ts:300-344 | each refusal of an unrecorded nonce, for the first fault in order |
| `PaymentService.Service.WriteAhead` | sidecar/src/service.ts:346-372 | a signature may follow exactly when the record is durable |
| `PaymentService.Service.Finish` | sidecar/src/service.ts:374-405 | the outcome record by its state, in memory and in the file for every point each persist may reach, including a delivery whose persist throws |
| `PaymentRuns.SettleIsFinish` | sidecar/src/service.ts:374-405 | the machine's outcome step leaves in memory and in the file what the endpoint's method does |
| `PaymentRuns.OneSignaturePerNonce` | sidecar/src/service.ts:257-405 | over every interleaving of calls, crashes and restarts, no nonce is signed for twice, and each signature is over terms that were durable first and still are |
| `PaymentRuns.StoredHashStable` | sidecar/src/service.ts:281-290 | a nonce's stored intent hash never changes, crashes included |
| `PaymentRuns.SignedIsAuthorized` | sidecar/src/service.ts:319-376 | every signature of every run is over the nonce and hash of a call whose token authorized exactly that payment when it came in |
| `PaymentRuns.RecordsTell` | sidecar/src/service.ts:355-401 | every record of every run, in memory or on disk, tells what a call with its nonce did: about to sign, delivered, may still settle, or failed; no other state is written |
| `PaymentRuns.NotFoundExactly` | sidecar/src/service.ts:408-412 | not found means nothing was ever signed for the intent; that nothing will be, unless a new call brings it, holds if and only if no call for it is between its entry and its record |
| `PaymentRuns.FailedMeansUnsigned` | sidecar/src/service.ts:388-401 | where throws precede signatures and deliveries persist, a FAILED record means nothing was signed, and that the nonce is durable |
| `PaymentRuns.FailedForGood` | sidecar/src/service.ts:281-299 | after such a run a FAILED record means no continuation whatever signs for its nonce, whoever calls with it again and however often the process dies and starts |
| `PaymentRuns.FailedKeptExactly` | sidecar/src/service.ts:374-401 | a step keeps the meaning of FAILED if and only if it is not a throw after the signature nor a delivery whose record fails to persist |
| `PaymentRuns.DeliveredMayReadFailed` | sidecar/src/service.ts:376-401 | without that, a delivered payment whose record fails to persist once ends up FAILED with its signature out |
| `Seller.Seller.ClaimNonce` | sidecar/src/seller.ts:174-190 | one synchronous decision; only a claim of an unseen nonce changes the records, and only the same purchase is told a pending one is held |
| `Seller.Seller.Conclude` | sidecar/src/seller.ts:499-578 | the record each outcome leaves, field by field, and that goods go out exactly on a settlement or on loopback without a facilitator |
| `Seller.MeaningExactly` | sidecar/src/seller.ts:174-190 | a pending nonce is held for the same path, amount and payer, in whatever case, and is a replay to anyone else; the other meanings exactly |
| `SellerReceipts.RecordsAreHonest` | sidecar/src/seller.ts:547-574 | in every run each record is of a purchase that came in with its nonce, and names as settlement the facilitator's own hash, or that nothing was broadcast, or that it is pending: no path invents one |
| `SellerRuns.EveryNonceLivesProperly` | sidecar/src/seller.ts:413-579 | over every interleaving, per nonce: settle calls do not overlap, none follows one that settled or may have, a delivery follows a settlement or an unconfigured loopback seller |
| `SellerRuns.DeliveredOnce` | sidecar/src/seller.ts:568-578 | a resource is delivered at most once per nonce |
| `SellerRuns.NoneAfterSettlement` | sidecar/src/seller.ts:499-545 | after a settle call that settled or may have, no later one is made |
| `SellerRuns.InFlightOwners` | sidecar/src/seller.ts:419-455 | an in-flight record has exactly one owner, and when all requests have ended the ones left are exactly those whose verification threw |
| `SellerRuns.OrphansThrew` | sidecar/src/seller.ts:443-455 | the ownerless records are exactly those of the verifications that threw |
| `SellerChain.FreedNonceIsUnused` | sidecar/src/seller.ts:509-515 | a nonce the seller holds no record of moved no money, and what it handed over was paid for, against any truthful facilitator |
| `SellerChain.LifeTellsMoney` | sidecar/src/seller.ts:413-579 | what each stage of a nonce's life says about its money |
| `SelfRelay.Relayer.Submit` | sidecar/src/circle-wallet.ts:284-338 | the polling loop ends at the first verdict or past the deadline, after a number of polls the spacing bounds, and answers as that poll says |
| `SelfRelay.SelfFacilitator.Settle` | sidecar/src/self-facilitator.ts:215-282 | how authorization, loading, submission and receipt become settled, rejected or unknown |
| `SelfRelay.SelfFacilitator.CircleRelayer` | sidecar/src/self-facilitator.ts:284-296 | a relayer is loaded once, and a failed load leaves nothing cached |
| `SelfRelay.SettleSoundly` | sidecar/src/self-facilitator.ts:215-282 | over every sequence of states, errors and receipts, a rejected settlement moved nothing and a settled one names the transaction that moved it |
| `SelfRelay.CircleAnswers` | sidecar/src/circle-wallet.ts:284-338 | every answer of the Circle lane by its cause: a refused creation, a lost one, or the first poll whose state says anything, with its hash and receipt, or the deadline |
| `SelfRelay.OtherAnswers` | sidecar/src/self-facilitator.ts:215-282 | every other answer by its cause: no lane, no signature, no payload, no relayer, the key lane's one hash |
| `SellerRelay.RelayedIsTruthful` | sidecar/src/self-facilitator.ts:215-282 | where each answer a seller got is one the relay may give for that nonce's attempt, or was lost, every answer is true of its submission |
| `SellerRelay.RelayedNonceIsUnused` | sidecar/src/seller.ts:499-545 | over the relay, in every interleaving, a nonce the seller holds no record of has no landed transfer and a resource was handed over for a landed one, unless by an unconfigured seller on loopback |
| `FloatScan.ScanLogs` | dashboard/lib/floatChain.ts:250-275 | it ends whatever the pattern of range errors, and on return the windows delivered tile the range, none wider than the first, and the logs are theirs |
| `FloatScan.TilesGather` | dashboard/lib/floatChain.ts:250-275 | windows that tile a range gather exactly its logs, no block missed or doubled |
| `FloatScan.SortedIsChainOrder` | dashboard/lib/floatChain.ts:277-282 | however the provider orders them, sorting restores the chain's order |
| `FloatScan.ScanState.MergeLogs` | dashboard/lib/floatChain.ts:423-472 | the loop computes the merge of the batch and never writes to an advance already there |
| `FloatScan.ScanState.EnrichOpenedAt` | dashboard/lib/floatChain.ts:474-487 | stamps exactly the advances this batch opened |
| `FloatScan.ScanState.Clone` | dashboard/lib/floatChain.ts:500-513 | a copy of the same value that shares no mutable object |
| `FloatScan.Scanner.ScanFloatHistory` | dashboard/lib/floatChain.ts:515-566 | publishes one full fold through the later of the cursor and the head; a throw leaves the cache as it was; no cached object is written to |
| `FloatScan.Extend` | dashboard/lib/floatChain.ts:540-556 | extending a full scan by the logs after it is the full scan |
| `FloatTotals.FullScanHolds` | dashboard/lib/floatChain.ts:423-472 | what a full scan holds, told from the logs alone: each total the sum of its own word, the open advances exactly the last issues nothing has ended, the ticks the rate changes in order, the org of the last issue |
| `FloatTotals.FoldFails` | dashboard/lib/floatChain.ts:423-472 | a scan fails exactly on a log that does not decode |
| `FloatLogs.MergeIsFold` | dashboard/lib/floatChain.ts:423-487 | merging a batch and stamping it afterwards is folding it stamped, decoding errors included |
| `FloatLogs.WordsRoundTrip` | dashboard/lib/floatChain.ts:178-191 | words written out at sixty-four digits read back |
| `FloatLogs.WordsAreWritten` | dashboard/lib/floatChain.ts:178-191 | data that reads as words is those words written out at sixty-four digits, up to case |
| `FloatLogs.EmittedDecodes` | dashboard/lib/floatChain.ts:440-471 | an event of a job whose words are encoded as the contract encodes them decodes to its own fields |
| `FloatLogs.EmittedRateDecodes` | dashboard/lib/floatChain.ts:430-439 | so does a rate change, for a block number and a rate the language can hold |
| `FloatLogs.DecodesExactly` | dashboard/lib/floatChain.ts:423-472 | and nothing else decodes: when each event is read and when it throws |
| `FloatSnapshots.IncrementalIsFull` | dashboard/lib/floatChain.ts:515-566 | over any interleaving of calls, landings, throws and peeks, the cache and every handed scan are one fold from the start block through the cursor |
| `FloatSnapshots.CursorOnlyAdvances` | dashboard/lib/floatChain.ts:519-566 | over any stretch of any run the cursor never goes back and what was handed stays handed; only a landing scan moves a pool's cache, and a stretch of throws hands out nothing |
| `FloatSnapshots.CompleteIsOneObservation` | dashboard/lib/floatChain.ts:615-652 | a snapshot labelled complete holds exactly the fold through the block of its figures, whichever caller's scan it was handed |
| `FloatTotals.CompleteSnapshotTells` | dashboard/lib/floatChain.ts:571-652 | over any interleaving of callers, a snapshot labelled complete tells under each wire name what all the logs through the block of its figures say: the four totals in decimal, the open advances, the org, the base rate and its changes |
| `FloatTotals.CompleteOnlyWhenReached` | dashboard/lib/floatChain.ts:645-650 | complete is granted exactly when asked for and reached, and pending takes its place |
| `Burn.ClosedFormIsLeast` | dashboard/lib/cctp.ts:89-100 | a burn delivers the price at the full fee if and only if it is at least the closed form: the correction loop never runs and the burn is the least |
| `Burn.BurnFor` | dashboard/lib/cctp.ts:89-100 | the method returns the closed form, which is the least delivering burn, and its fee cap, after no round of correction, and refuses exactly a price or fee out of range |
| `Burn.SizedBurnPaysNow` | dashboard/lib/cctp.ts:232-245 | a burn sized for the price pays it now under any fee up to its cap, reported or not |
| `Burn.PaysOnlyWhenCovered` | dashboard/lib/cctp.ts:216-245 | it mints exactly what is not minted yet; pay now is never said when the balance after the mint would be short, and is said exactly when it suffices if the fee is known |
| `Amounts.ParseUSDCInt64` | daemon/internal/agents/manifest.go:256-294 | the digit loops on int64, no intermediate out of range, compute the decimal value or the right refusal |
| `Amounts.ParsesOrRefuses` | daemon/internal/agents/manifest.go:256-294 | each refusal by its cause, and what is accepted with its value |
| `Amounts.TrimsExactly` | daemon/internal/agents/manifest.go:257-257 | trimming takes all the Unicode white space at either end and nothing else |
| `Amounts.PrincipalExactly` | daemon/internal/advancing/advancing.go:312-338 | the principal is the quote's share at the rate rounded down to a micro, within an int64, for a rate from one to the whole; never more than the quote |
| `Amounts.FullRateAgrees` | daemon/internal/advancing/advancing.go:312-338 | where parseUSDC accepts, the principal at 10000 bps is its value, except exactly for a missing whole part, an empty fraction or zero |
| `Amounts.ExactWithoutSigns` | daemon/cmd/chainops/main.go:414-433 | what usdcMicros accepts is the same decimal value exactly when neither part carries a sign and the whole part is in bound |
| `Amounts.SignedFractionAccepted` | daemon/cmd/chainops/main.go:422-431 | a signed fraction is accepted and reads as another amount |
| `Amounts.FormatRoundTrip` | daemon/cmd/chainops/main.go:435-440 | the printer's text reads back if and only if the value is above minus 100000 micros, so for every non-negative amount |
| `Amounts.UsdcMicrosInPlace` | daemon/cmd/chainops/main.go:414-433 | the in-place accumulation computes the same answer |
| `SpendTally.MoneyGraph.Show` | dashboard/components/MoneyGraph.tsx:233-313 | one message's effect on the total and the tallies, in every branch |
| `SpendTally.BeatsByKind` | dashboard/components/MoneyGraph.tsx:84-141 | which kinds are spends, which start a cycle, and which are each other beat; an approval request spends exactly once approved |
| `SpendTally.MessagesByKind` | dashboard/components/MoneyGraph.tsx:233-313 | a start makes the total a known zero and forgets the tallies; anything but a start or an amount-bearing spend leaves both alone |
| `SpendTally.TotalIsLargerSum` | dashboard/components/MoneyGraph.tsx:194-225 | from a cycle's start, the total is the sum over amount keys, the texts as they arrive, of the amount times the larger of the two sources' reports, a report being a message of a spend kind with a positive amount |
| `SpendTally.ArrivalOrderIsIrrelevant` | dashboard/components/MoneyGraph.tsx:218-220 | the same messages in any order of arrival give the same total |
| `Advances.Flow.EscalateInterrupted` | daemon/internal/advancing/advancing.go:233-268 | the boot loop leaves the whole escalation behind and counts what the owner was told; a failed append stops it |
| `Advances.NoneLeftSilent` | daemon/internal/advancing/advancing.go:233-268 | after the pass every request has a durable outcome, a word to its owner, or was closed unclaimed |
| `Advances.OnlyTheUnsettled` | daemon/internal/advancing/advancing.go:233-268 | and a closed or already resolved one draws no word and no outcome |
| `Advances.EscalationExactly` | daemon/internal/advancing/advancing.go:245-308 | what the pass appends for one request, case by case |
| `Advances.Flow.ResolveExecutedClaim` | daemon/internal/advancing/advancing.go:271-308 | a durable outcome, else the chain's answer, else the owner |
| `Advances.Flow.RecordAdvanceOutcome` | daemon/internal/advancing/advancing.go:193-226 | each chain outcome as its own event, by name |
| `AdvanceRuns.NeverResumedNorRepeated` | daemon/internal/advancing/advancing.go:145-308 | over any run with any number of restarts, an advance starts only in the process that proposed it, after a named decider approved it there, and is recorded executed at most once |
| `AdvanceProjection.FlowSeesTheLifecycle` | daemon/internal/advancing/advancing.go:233-268 | in every state of every run of the lifecycle's machine, what the flow replays of the log is exactly the lifecycle's advances, in state, decider, claim and job; each advance that started is among them, claimed, born pending and approved by a named decider |
| `AdvanceRuns.RecordsAreTrue` | daemon/internal/advancing/advancing.go:271-308 | with every vault job drawn on once, a recorded execution is of an advance that landed |
| `AdvanceSharing.TruthfulExactly` | daemon/internal/advancing/advancing.go:280-295 | recorded executions are true in every run if and only if no two requests draw on one vault job: the chain answers for the job |
| `AdvanceSharing.SharedJobIsMisrecorded` | daemon/internal/advancing/advancing.go:280-295 | for any two requests on one job, a run that records the one that never landed |

## Left out

- React components, styling, pages, server-sent events, and everything of the money graph but its total.
- Keccak, HMAC, EIP-712 signing and recovery, WebAuthn, and the Solidity contracts: signatures are opaque.
- HTTP, JSON-RPC retry and back-off, SQLite, environment and flag parsing: an append succeeds or fails, a rename is atomic.
- Log failures other than a failed append: a torn or reordered event log.
- Free-text reasons, display fields and audit-only payload keys of events and records; they decide nothing.
- UTF-8 bytes: text is scalar values, so a count of bytes (a fraction's length) is a count of characters; the strings where they differ are refused either way.
- RFC 3339 text (section 5.6): printing an instant is a parameter.
- `ApprovalHash.CanonicalWorldIsCollisionless`: the request id is the hash's first six bytes in the code, and the cut, like the digest, is assumed not to collide.
- The map order of open advances in a snapshot.
- Sweep's two short critical sections, merging the durable claims and collecting the dead holds, are one step.
- In `ApprovalRuns` the ledger is its expiry and closing alone; amounts are in `Budget`, and a policy verdict is a nondeterministic choice there, but for what no policy or ledger accepts.
- A block fetch that returns nothing, which leaves an advance unstamped until it is next opened.
- `BudgetRuns.NeverOversubscribed`: for a fixed policy and payments no larger than their holds, because the ledger records an overpayment as it happened.
- `Release.ReleasedMeansUnsigned`: supposes that a throw comes before the signature and a delivery's record persists; `PaymentRuns.DeliveredMayReadFailed` shows why.
- `SelfRelay.SettleSoundly`: supposes that a 4xx creation, a denied or cancelled transaction and a hashless failure were never broadcast, and that a reported hash is the transaction's own.
- `SelfRelay.Relayer.Submit`: for a positive polling interval and polls spaced by at least it; with none the loop's length has no bound.
- `SellerRuns.EveryNonceLivesProperly`: within one process; the nonce ledger is in memory and a restart forgets it.
- `AdvanceRuns.NeverResumedNorRepeated`: the gates of an execution are a nondeterministic choice there; `ApprovalSafety.ExactlyOnce` has them, and `AdvanceProjection.FlowSeesTheLifecycle` joins the two.
- `SellerChain.FreedNonceIsUnused`: within one process, as the nonce ledger is; a facilitator other than the self-hosted relay is assumed truthful.
- `SellerRelay.RelayedNonceIsUnused`: within one process, and under what `SelfRelay.SettleSoundly` supposes of Circle and the chain.
- `FloatLogs.EmittedDecodes`: an issue whose rate exceeds the safe integers, like a rate change, is refused by the code.
- `LifecycleSteps.SubmitIsItsSteps`: whether an alternative's link is good is read off the object; the machine does not keep it.
- `Lifecycle.Lifecycle.Submit`: the verdict of the policy engine is a parameter; `Policy.Evaluate` and `BudgetRuns` supply it.
- `daemon/internal/freeze/freeze.go` beyond which scopes cover an intent; engaging and lifting are one nondeterministic step.
