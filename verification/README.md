# AgentGate: the paid-call protocol and the pieces it rests on

A Dafny model of AgentGate, a gateway that sells HTTP calls: a caller without a payment gets a
402 challenge carrying an invoice, settles it on chain, presents the proof, is served by the
seller's upstream exactly once, and the outcome of the call is attested on chain. The project
models what the repository's code does, including where its documentation says otherwise, and
proves properties of every run.

The centre is one state machine (`Gateway`): an event is a stretch of code between two awaits, a
step of the chain, a timer, a crash or a boot. Requests interleave freely, the sweeper runs at
any time, every file write may throw or be cut short, and the process may die between any two
events. This allows every interleaving the code has and some it has not; where that matters, in
`GatewayBurns`, the timers are restricted to the places where the code waits. What the environment decides (nonces drawn, the upstream's answer, whether a write throws,
whether a message arrives) is carried by the events, so a theorem about all event sequences is a
theorem about all schedules and all failures.

| file | what it is |
|---|---|
| `Basics`, `Decimal`, `Text` | options and results, bounded logs, decimal digit strings, trimming and case |
| `ChainLedger`, `Devnet` | the mock chain as an unbounded history, and the class with capped, indexed logs that refines it |
| `Verification` | the verdicts of the mock and of the live client on a settlement |
| `Invoices`, `InvoiceStores` | the invoice images, and the memory and the file store as classes |
| `PendingQueue`, `AttestationQueues` | the attestation queue with its two files as functions on the full history, and the class |
| `Gateway` | the protocol state machine |
| `GatewaySafety`, `GatewayPayments`, `GatewayRetention`, `GatewayScores` | what every run keeps: single use, paid deliveries, retention, earned scores |
| `GatewayProgress` | what happens when nothing interferes: exactly which proofs are served |
| `GatewayRejections` | what a rejected buyer is told, in every run |
| `GatewayBurns` | exactly when the burn is refused after the checks passed |
| `GatewayQueue` | no queued payment is replaced by another |
| `GatewaySteps` | who is let in, and what each single step does, beside the theorems on runs |
| `GatewayAttestations` | what is enqueued, attempted and replayed, up to the record on chain |
| `GatewayHandover` | every delivered call is accounted for, in every run |
| `GatewayPurchase` | an honest purchase goes through, from any point of any run |
| `Money` | wei and OG amounts as strings |
| `SignedMessages` | the texts that are signed or hashed |
| `NonceAllocator` | transaction nonces against a node whose count lags |
| `CreationSearch` | the search for a contract's creation block |
| `Upstreams`, `UpstreamStores`, `SelfMapping` | the upstream table, its write queue and file, and the self-service route |
| `ActivityFeed` | the recent-activity feed of the live client |
| `Client` | the paying client |
| `ShellQuote` | shell quoting, and the retry command it is used in |

The usual shape: a `class` has the fields and loops of the source, each of its methods is proved to
act as a function on an abstract value, and the theorems are about runs of those functions. A
clock reading is a parameter. A transaction hash is modelled by its preimage, which
`SignedMessages.PreimagesDistinct` shows to determine payload and counter; a signature is modelled
by who made it over which text.

Results that differ from what the code's own comments and documentation say:

- A failure on the gateway's side releases the invoice again (`packages/middleware/src/app.ts:809`);
  documentation that calls it consumed is out of date. `GatewayProgress.FailureGivesBack` follows the code.
- The floor under transaction nonces expires so that a dropped transaction cannot strand the account
  (`packages/chain/src/live-0g.ts:45-51`). Each accepted send renews it, so under steady sending it
  never expires: `NonceAllocator.SteadySendingStaysStranded`. `SkipsExactly` says when a nonce past
  the true next one is handed out, `AheadByLoss` ties that to the transactions lost since, and
  `NeverSkipsAhead` says that without losses it never happens.
- Where signatures are demanded, a buyer who paid by the deadline, presented a signed proof inside the
  redemption window and passed every check can still be told that the invoice, which nobody used, is
  used: the sweeper may drop it while the signer is being recovered, if the window closes meanwhile
  (`packages/middleware/src/app.ts:739-768`). `GatewayBurns.PaidInTimeToldUsed` is such a run, with
  timers where the code allows them, and `RefusedExactly` the exact condition. Without signatures
  verdict and burn are one stretch and it cannot happen: `UnsignedRefusalMeansHeld`. Every other reason
  a buyer is given is true: `GatewayRejections.RejectionsAreTrue`.
- The attestation queue is keyed by the transaction hash alone, so enqueuing another payment under the
  same hash, of another service or of another invoice of the same one, silently replaces the first
  (`packages/middleware/src/attestation-queue.ts:230-238`): `PendingQueue.SharedHashReplaces`, and
  exactly then, `EnqueueDropsExactly`. A removal takes whatever entry the hash has:
  `RemoveDropsExactly`. Where a hash stands for one payment `NoPaymentIsLost` holds, and on the mock
  chain it does: `GatewayQueue.NothingIsReplaced`.

## Model

| member | source | states |
|---|---|---|
| GatewaySafety.AtMostOneDelivery | packages/middleware/src/app.ts:661-812 | in every interleaving with releases, sweeps, throwing writes, crashes and boots at most one response is delivered per invoice nonce, and a delivered invoice is never burnable again, in memory or on disk |
| GatewaySafety.UsedMeansHeld | packages/middleware/src/app.ts:762-812 | a known invoice is used iff it has a holder, it is held in flight by exactly the request proxying it, and no two requests proxy the same one |
| GatewaySafety.RunIsSingleUse | packages/middleware/src/invoice-store-file.ts:67-93 | the inductive invariant behind both, tying both store images to holders and deliveries in every run |
| GatewayPayments.EveryDeliveryIsPaid | packages/middleware/src/app.ts:674-768 | every delivery has a settlement for its service and nonce, to the service's target, of at least the recorded price, by the invoice's deadline, by the proof's signer where signatures are demanded; no settlement serves two deliveries |
| GatewayPayments.RevenueNeverExceedsSettlement | packages/middleware/src/app.ts:678-690 | per service the delivered prices sum to at most the wei settled to its target |
| GatewayPayments.RevenueIsCovered | packages/middleware/src/app.ts:678-690 | deliveries with distinct nonces, each matched by a transfer, are covered in sum by the transfers |
| GatewayPayments.RunIsPaidUp | packages/middleware/src/app.ts:661-768 | in every run each request holds only what its checks established, and the chain stays well formed |
| GatewaySteps.RequestsWereAdmitted | packages/middleware/src/app.ts:591-605 | in every run each request being handled came by an arrival of that run, with this service and proof, that saw the service active, and is handled under an active record |
| GatewaySteps.DeliveriesWereAdmitted | packages/middleware/src/app.ts:591-605 | in every run every delivery answers a call that arrived, with the very proof it was paid by, at a service seen active |
| GatewaySteps.ArrivalIsAdmitted | packages/middleware/src/app.ts:591-643 | a new call to a known service seen active is let in with that service's record, goes on if it has a proof and is asked to pay if not; nothing else changes |
| GatewaySteps.ArrivalIsTurnedAway | packages/middleware/src/app.ts:596-605 | a call to a service seen inactive, or unknown, changes nothing, whatever proof it has |
| GatewaySteps.ChallengeIssues | packages/middleware/src/app.ts:345-353 | each rejected request gets one fresh unused invoice for its service, at the recorded price, good from now for the quoted time, stored before it is sent; a throwing write means no challenge |
| GatewaySteps.ChallengeIsHonoured | packages/middleware/src/app.ts:345-353 | once a challenge was sent its invoice is known, as quoted, at every later point of any run inside its window, with the file store also across crashes |
| GatewaySteps.BurnSpends | packages/middleware/src/app.ts:762-768 | the burn marks exactly this invoice before anything is proxied; a throwing write ends the request with the mark in memory alone |
| GatewayRetention.NeverToldUnknown | packages/middleware/src/invoice-store.ts:109-114 | a payer whose payment beat the invoice's deadline and whose proof is still inside the redemption window is never answered unknown_nonce, for both stores and, with the file, across reboots |
| GatewayRetention.RunRetains | packages/middleware/src/invoice-store-file.ts:232-242 | in every run an acknowledged invoice stays in memory and in the file until its window closes |
| GatewayScores.ScoresAreEarned | packages/middleware/src/app.ts:363-449 | every attestation on chain is of a delivered call not paid by the service's own accounts, with that call's own 2xx flag, and each payment is attested once per service |
| GatewayScores.NothingEnqueuedIsLost | packages/middleware/src/app.ts:413-449 | every payment whose enqueue returned is, at any later moment and after any crash, still queued, dead-lettered, or on chain |
| GatewayAttestations.ScheduleEnqueues | packages/middleware/src/app.ts:413-430 | whatever status the upstream answered, a stranger's call is enqueued with hash, service, nonce, payer, time and its 2xx flag, in memory and in the live file, and its first attempt made ready for the service's attestor; it fails exactly when a write throws |
| GatewayAttestations.OwnPaymentIsSkipped | packages/middleware/src/app.ts:819-835 | a call paid by owner, payout account or attestor changes neither queue nor attempts |
| GatewayHandover.EveryDeliveryIsHandedOn | packages/middleware/src/app.ts:814-826 | in every run each delivered call of a stranger to its service was enqueued, or still awaits that, or was lost to a crash or a throwing write between answer and enqueue |
| GatewayHandover.EveryCallIsAccountedFor | packages/middleware/src/app.ts:413-449 | so unless lost in that way or still awaited, each such call is on chain for its service or held by queue or dead-letter log under its own service and nonce |
| GatewayAttestations.AnsweredCallIsRecorded | packages/middleware/src/app.ts:374-430 | in every run a stranger's answered call, scheduled with all writes in order at an active service, is on record after one attempt with its own flag, unless recorded before, and out of memory and live file |
| GatewayAttestations.AttemptRecords | packages/middleware/src/app.ts:374-404 | an attempt the chain welcomes appends one record with the entry's service, payment and flag, or none if the payment has one |
| GatewayAttestations.FailedAttemptIsRetried | packages/middleware/src/app.ts:374-404 | an attempt that is refused or not heard leaves the queue alone and is made again unchanged, exactly until it was made as often as configured; a heard success removes just its entry |
| GatewayAttestations.BootReplays | packages/middleware/src/app.ts:435-449 | a boot starts exactly one attempt for each young enough entry, successes and failures alike, whose service is known and whose look-up answers, for that very entry, signed by the attestor; none if the pruning's flush throws |
| GatewayAttestations.ReplayedIsRecorded | packages/middleware/src/app.ts:435-449 | an entry that survived a crash is, where its service is active and its look-up answers, on record after one attempt, and out of memory and live file |
| GatewayQueue.NothingIsReplaced | packages/middleware/src/app.ts:413-430 | in every run, each payment whose enqueue returned is on chain or keeps an entry or a letter of its very service and nonce, in memory and after a crash |
| GatewayScores.ScoreIsBounded | packages/middleware/src/app.ts:814-826 | a service's score counts no more calls, successes or failures than were delivered to others than its own accounts |
| GatewayScores.RecordsAreCovered | packages/devnet/src/state.ts:297-353 | records with distinct payments, each backed by a delivery, are covered one by one by the deliveries |
| GatewayProgress.RedeemableIsServed | packages/middleware/src/app.ts:661-795 | run without interference, a presented proof is served, with one delivery and its invoice burnt in memory and on disk, iff invoice, settlement, timing and signature all hold; otherwise nothing changes |
| GatewayProgress.ChecksAreExact | packages/middleware/src/app.ts:661-760 | lookup, chain read, verdict, expiry and payer check together pass exactly the redeemable proofs |
| GatewayProgress.FailureGivesBack | packages/middleware/src/app.ts:796-812 | a gateway-side failure undoes the burn, so exactly the same proofs are redeemable as before; what the file holds when the second write throws |
| GatewayProgress.AttemptIsExact | packages/middleware/src/app.ts:374-404 | an answered attempt the chain does not refuse leaves the payment on record and clears its entry, also when an earlier attempt recorded it; a refused one leaves the entry queued |
| GatewayPurchase.PurchaseCompletes | packages/middleware/src/app.ts:591-826 | at any point of any run, a stranger who has the price, asks, pays what the invoice says and presents the signed proof is served once, with the upstream's status; the invoice is spent in memory and file, and the call on record after one attempt with its 2xx flag, unless that payment was recorded before |
| GatewayRejections.RejectionsAreTrue | packages/middleware/src/app.ts:639-768 | in every run and interleaving, the reason a step rejects a request for is true: `not_found` that the hash was not among the kept transfers when this call read the chain, each other verdict of the transfer presented, `invoice_used` that the invoice has a holder, or was found unused by this call's own lookup and dropped since, past its window if it was acknowledged |
| GatewayRejections.RequestsHaveSeen | packages/middleware/src/app.ts:661-690 | in every run a call past its lookup found its invoice unused in that very lookup, and one past its reading of the chain got there exactly the transfer it goes on with |
| GatewayBurns.BurnRefusedExactly | packages/middleware/src/app.ts:762-768 | in every run the burn of a cleared request is refused iff the invoice has a holder or has left memory; one that left was found unused by this call's own lookup, and left past its window if acknowledged |
| GatewayBurns.RefusedExactly | packages/middleware/src/app.ts:678-768 | in every run, whatever else happens between a request's verdict and its burn, the burn after passed checks of an acknowledged invoice is refused iff that has a holder by then or a sweep came meanwhile, after expiry plus window |
| GatewayBurns.UnsignedRefusalMeansHeld | packages/middleware/src/app.ts:739-768 | without signatures, in every run with timers only where the code waits, a cleared request for an acknowledged invoice is refused iff the invoice has a holder |
| GatewayBurns.PaidInTimeToldUsed | packages/middleware/src/app.ts:739-768 | with signatures, a run with timers only where the code waits, in which a buyer who paid in time and whose proof was judged inside the window passes every check and is told `invoice_used` with no holder and no delivery |
| GatewayBurns.KnownAfter | packages/middleware/src/invoice-store.ts:79-114 | while the process lives, an issued invoice stays known exactly until a sweep past its window |
| GatewaySteps.SweepLeavesOpen | packages/middleware/src/invoice-store.ts:109-114 | a sweep leaves exactly the invoices whose redemption window is open, unchanged |
| GatewaySteps.PruningLeavesYoung | packages/middleware/src/attestation-queue.ts:303-314 | a pruning leaves exactly the entries younger than the limit, in the file too when its writes land |
| GatewaySteps.CrashLeavesFiles | packages/middleware/src/attestation-queue-file.ts:54-72 | a crash leaves what the two files hold, and no request or attempt |
| Invoices.FileRefinesMemory | packages/middleware/src/invoice-store-file.ts:67-93 | whatever writes throw, the file store's memory image is the memory store's, and its file holds that store's image at the last agreement |
| Invoices.ReloadIsExact | packages/middleware/src/invoice-store-file.ts:117-193 | with every write landing, a reload gives the memory image back |
| Invoices.StaysBurnt | packages/middleware/src/invoice-store.ts:89-100 | a used or unknown invoice stays unburnable until released or put again |
| Invoices.SweptExactlyWhenLapsed | packages/middleware/src/invoice-store.ts:109-114 | a run drops an invoice iff one of its sweeps came later than expiry plus retention, and changes only its flag |
| Invoices.QuietMeansUnchanged | packages/middleware/src/invoice-store-file.ts:78-93 | where the file store skips the flush, nothing has changed |
| Invoices.FlushMeansChange | packages/middleware/src/invoice-store-file.ts:67-93 | a put is always flushed, and any other operation exactly when it changes the image |
| InvoiceStores.MemoryInvoiceStore.MarkUsed | packages/middleware/src/invoice-store.ts:89-94 | succeeds iff the invoice is known and unused, and sets only its flag |
| InvoiceStores.MemoryInvoiceStore.Release | packages/middleware/src/invoice-store.ts:96-100 | clears the flag of a known invoice, nothing else |
| InvoiceStores.MemoryInvoiceStore.Sweep | packages/middleware/src/invoice-store.ts:109-114 | the loop deletes exactly the invoices lapsed longer than the retention time |
| InvoiceStores.FileInvoiceStore.Put | packages/middleware/src/invoice-store-file.ts:67-71 | memory and file after a put whose write lands or throws |
| InvoiceStores.FileInvoiceStore.MarkUsed | packages/middleware/src/invoice-store-file.ts:78-84 | as in memory, flushed only on a change; the exception case |
| InvoiceStores.FileInvoiceStore.Release | packages/middleware/src/invoice-store-file.ts:86-93 | as in memory, flushed only on a change |
| InvoiceStores.FileInvoiceStore.Sweep | packages/middleware/src/invoice-store-file.ts:232-242 | as in memory, with one flush iff something was deleted |
| PendingQueue.NothingAcknowledgedIsLost | packages/middleware/src/attestation-queue-file.ts:74-88 | wherever writes throw and the process dies, every acknowledged entry is live, dead-lettered or confirmed, in memory and after a reload |
| PendingQueue.EntriesConserved | packages/middleware/src/attestation-queue.ts:230-327 | in every run the live and dead-lettered entries are exactly those inserted less those removed plus the letters crashes doubled, in memory and in the live file as of its last write |
| PendingQueue.TotalNeverUndercounts | packages/middleware/src/attestation-queue-file.ts:68-72 | the reloaded total is at least the insertions that reached the live file less those it saw removed and those it holds, plus the doubled letters; acknowledged insertions did reach it |
| PendingQueue.BudgetSpansBoots | packages/middleware/src/attestation-queue.ts:230-269 | an entry that stays live has its attempts grow by exactly its failures less what crashes forgot for it, stays below the maximum, and has every failure accounted for iff crashes forgot none on balance |
| PendingQueue.TornWriteForgets | packages/middleware/src/attestation-queue-file.ts:82-88 | a crash between the two writes of a failure forgets that failure |
| PendingQueue.SharedHashReplaces | packages/middleware/src/attestation-queue.ts:230-238 | enqueuing under a live entry's hash takes its place in memory and in the file, with no letter; a payment is dropped iff the two are of different services or nonces |
| PendingQueue.SetsInPlace | packages/middleware/src/attestation-queue.ts:230-238 | a re-enqueued entry keeps its place in the order of the queue, every other stays where it is, a new one goes last |
| PendingQueue.EnqueueDropsExactly | packages/middleware/src/attestation-queue.ts:230-238 | an enqueue drops a live payment without a letter iff that is unexpired, has the new one's hash, and is of another service or nonce |
| PendingQueue.RemoveDropsExactly | packages/middleware/src/attestation-queue.ts:240-243 | a removal drops the entry under the hash, whichever payment it is about, and no other |
| PendingQueue.NoPaymentIsLost | packages/middleware/src/attestation-queue.ts:230-238 | where a hash stands for one service and nonce, every acknowledged, unconfirmed payment keeps an entry or a letter of its own, in memory and after a reload |
| PendingQueue.LiveFileFirstWouldLose | packages/middleware/src/attestation-queue-file.ts:74-88 | the other write order could leave an expired entry in neither file; the one used leaves it in both |
| PendingQueue.PruneKeeps | packages/middleware/src/attestation-queue.ts:303-314 | pruning loses no key and what it leaves is younger than the age limit |
| PendingQueue.PruneParts | packages/middleware/src/attestation-queue.ts:303-314 | pruning parts the entries into the young, which stay, and the rest, each with its letter |
| PendingQueue.FailsExactly | packages/middleware/src/attestation-queue.ts:250-269 | a failure dead-letters a known entry iff it is terminal or spends the budget, with the charged entry, the time and the reason that holds; otherwise it stays charged; unknown iff absent; no other entry is touched |
| AttestationQueues.FileAttestationQueue.constructor | packages/middleware/src/attestation-queue-file.ts:42-72 | opening on any two files, missing, corrupt, with malformed or repeated rows, or written under another cap, gives the entries, the log and the total they hold |
| AttestationQueues.FileAttestationQueue.Open | packages/middleware/src/attestation-queue.ts:216-223 | bounds that are not positive are refused, and nothing else |
| AttestationQueues.ItemsReadBack | packages/middleware/src/attestation-queue-file.ts:56-59 | the rows a flush writes for the live entries load back to the entries |
| AttestationQueues.ItemsLoadExactly | packages/middleware/src/attestation-queue-file.ts:56-59 | the entries a live file loads to are exactly those that are the last well-formed row under their hash |
| AttestationQueues.LogLoadsExactly | packages/middleware/src/attestation-queue-file.ts:60-67 | the letters a sidecar loads to are exactly its well-formed rows |
| AttestationQueues.SomeHistoryFits | packages/middleware/src/attestation-queue-file.ts:60-72 | every sidecar, readable or not, comes from some history with its total and its log |
| AttestationQueues.FileAttestationQueue.Persist | packages/middleware/src/attestation-queue-file.ts:82-88 | the two writes in order, cut off after any number of them |
| AttestationQueues.FileAttestationQueue.MoveToDeadLetters | packages/middleware/src/attestation-queue.ts:317-327 | the log stays the end of the history, cut to its cap, and the total the history's length; a log as long as its cap allows, also one opened above a lowered cap, holds exactly the newest letters afterwards |
| AttestationQueues.FileAttestationQueue.MoveExpired | packages/middleware/src/attestation-queue.ts:303-311 | the loop over a snapshot moves exactly the expired entries, in order |
| AttestationQueues.FileAttestationQueue.PruneExpired | packages/middleware/src/attestation-queue.ts:303-314 | prune and flush once iff something moved; how many moved |
| AttestationQueues.FileAttestationQueue.Enqueue | packages/middleware/src/attestation-queue.ts:230-238 | prunes first, carries spent attempts over to a re-enqueued entry, then flushes |
| AttestationQueues.FileAttestationQueue.Remove | packages/middleware/src/attestation-queue.ts:240-243 | drops the entry and flushes iff it was there |
| AttestationQueues.FileAttestationQueue.List | packages/middleware/src/attestation-queue.ts:245-248 | the live entries after pruning |
| AttestationQueues.FileAttestationQueue.RecordFailure | packages/middleware/src/attestation-queue.ts:250-269 | charges the entry; dead-letters on a terminal failure or a spent budget, else keeps it; unknown otherwise |
| AttestationQueues.FileAttestationQueue.DeadLetters | packages/middleware/src/attestation-queue.ts:275-277 | the end of the whole dead-letter history: its newest entries up to the cap, once the log was opened so |
| AttestationQueues.FileAttestationQueue.Stats | packages/middleware/src/attestation-queue.ts:279-292 | pending count, the greatest age attained, below the limit, and the length of the whole dead-letter history |
| ChainLedger.WeiConserved | packages/devnet/src/state.ts:177-240 | after any run the balances sum to the faucet grants and none is negative |
| ChainLedger.PayMeans | packages/devnet/src/state.ts:188-240 | who gains and loses by a transfer, also to oneself, and the record and event kept of it; it is refused iff the balance is short, and then nothing changes |
| ChainLedger.FaucetMeans | packages/devnet/src/state.ts:177-182 | a grant raises the balance of its account by its amount and touches no other |
| ChainLedger.RegisterMeans | packages/devnet/src/state.ts:250-295 | which of the four refusals is due, and else the active record under the next id, with price, accounts and the normalized target; no other service changes |
| ChainLedger.RecordMeans | packages/devnet/src/state.ts:297-353 | when a record is made, by whom, with what it says, and which of the four refusals is due when not |
| ChainLedger.SetActiveMeans | packages/devnet/src/state.ts:355-364 | the flag takes the value asked for iff the owner asks, and nothing else of any service changes |
| ChainLedger.FindsTheNewest | packages/devnet/src/state.ts:221-246 | a transfer can be looked up iff fewer than 2000 newer ones exist, and the lookup returns no other |
| ChainLedger.RunWellFormed | packages/devnet/src/state.ts:159-164 | in any run hashes are distinct, each payment is attested once per service, and ids are fresh |
| ChainLedger.ApplyKeepsNames | packages/devnet/src/state.ts:188-219 | a transfer's hash determines its service and nonce, after every operation |
| ChainLedger.ScorePush | packages/devnet/src/state.ts:327-330 | one more record changes its own service's totals by one and no other's |
| Devnet.RingPush | packages/devnet/src/state.ts:221-226 | push and evict keep the table the map of exactly the newest 2000 transfers, keyed in order |
| Devnet.ScoresPush | packages/devnet/src/state.ts:311-342 | the incremental score, the capped list and the seen-set track the full history |
| Devnet.DevnetState.PushActivity | packages/devnet/src/state.ts:166-169 | the feed is the newest 500 of the full history, newest first |
| Devnet.DevnetState.KeepTransfer | packages/devnet/src/state.ts:221-226 | the eviction loop keeps the ring buffer exact |
| Devnet.DevnetState.Faucet | packages/devnet/src/state.ts:177-182 | refines the ledger's grant |
| Devnet.DevnetState.Transfer | packages/devnet/src/state.ts:188-240 | refines the ledger's payment, with the self-transfer case as the code computes it |
| Devnet.DevnetState.GetTransfer | packages/devnet/src/state.ts:242-246 | the retained transfer with this hash, or not found |
| Devnet.DevnetState.RegisterService | packages/devnet/src/state.ts:250-295 | refines registration, with its four refusals in order |
| Devnet.DevnetState.RecordAttestation | packages/devnet/src/state.ts:297-353 | refines recording, with its four refusals in order |
| Devnet.DevnetState.SetActive | packages/devnet/src/state.ts:355-364 | only the owner changes the flag |
| Devnet.DevnetState.GetScore | packages/devnet/src/state.ts:394-397 | the counts over the full, uncapped history |
| Devnet.DevnetState.ListAttestations | packages/devnet/src/state.ts:399-402 | the newest 100 of the service's full history, newest first, up to the limit |
| Devnet.DevnetState.ListActivity | packages/devnet/src/state.ts:404-406 | the newest events up to cap and limit |
| Verification.LiveSettlementIsReal | packages/chain/src/live-0g.ts:1004-1039 | an ok verdict comes from a log of our router matching target, service, nonce, amount and age |
| Verification.LiveSettlesExactly | packages/chain/src/live-0g.ts:1004-1039 | where a receipt settles a pair at most once, the verdict is ok iff such a log exists |
| Verification.LiveRefusesExactly | packages/chain/src/live-0g.ts:982-1025 | pending, not-found, wrong-target and wrong-nonce each iff its own condition on hash, receipt and logs |
| Verification.FirstPayingDecides | packages/chain/src/live-0g.ts:1013-1039 | the first log that fits alone decides between amount, age and settlement |
| Verification.MockDecidesExactly | packages/chain/src/mock.ts:235-256 | each verdict of the mock iff its own condition on the transfer |
| Verification.ClientsAgree | packages/chain/src/mock.ts:235-256 | on a receipt with exactly one router log both clients return the same verdict, so test in the same order |
| Money.WeiRoundTrip | packages/shared/src/money.ts:34-58 | converting wei to OG and back yields the canonical form of every wei string |
| Money.OgRoundTrip | packages/shared/src/money.ts:34-58 | converting OG to wei and back keeps the rational value and gives its shortest form |
| Money.OgToWeiMeans | packages/shared/src/money.ts:34-45 | which strings are accepted, and the exact number of wei each becomes |
| Money.WeiToOgMeans | packages/shared/src/money.ts:51-58 | the output reads back as the shortest decimal of the amount |
| Money.CompareIsRational | packages/shared/src/money.ts:66-72 | comparing converted amounts is comparing the decimal strings as rationals |
| Money.MatchesExactly | packages/shared/src/money.ts:34-45 | the amount pattern matches exactly the digit strings with at most one point between digits |
| Money.NoDecimals | packages/shared/src/money.ts:84-93 | at no decimals or fewer the printer gives the canonical integer, or the same error |
| Money.FormatUnitsIsWeiToOg | packages/shared/src/money.ts:84-93 | at eighteen decimals the general printer is the OG printer, errors included |
| Money.FormatUnitsIsExact | packages/shared/src/money.ts:84-93 | at any positive precision the output is the shortest decimal of the amount |
| SignedMessages.SelfMapReadable | packages/shared/src/self-map.ts:23-32 | a reader working from both ends finds exactly the fields a message was built from, with line breaks in the URL, for one-line networks |
| SignedMessages.SelfMapInjective | packages/shared/src/self-map.ts:15-32 | equal self-map messages have equal network, service, URL and timestamp |
| SignedMessages.NetworkBreaksReading | packages/shared/src/self-map.ts:23-32 | with a line break in the network two services share a message, so the condition is needed |
| SignedMessages.PaymentProofInjective | packages/shared/src/payment-proof.ts:34-47 | payment-proof messages are equal iff their fields are, up to the case of the hash |
| SignedMessages.KindsAreSeparate | packages/shared/src/payment-proof.ts:38-47 | no text is a message of both kinds, whatever the fields |
| SignedMessages.SelfMapLines | packages/shared/src/self-map.ts:23-32 | the exact text of a self-map message, line by line |
| SignedMessages.PaymentProofLines | packages/shared/src/payment-proof.ts:38-47 | the exact text of a payment-proof message, line by line, the hash in lower case |
| SignedMessages.PreimagesDistinct | packages/devnet/src/state.ts:159-164 | different payloads or counters have different hash preimages |
| NonceAllocator.Allocator.Enqueue | packages/chain/src/live-0g.ts:692-697 | a call is chained to its account's tail, by the address in lower case, and becomes the tail |
| NonceAllocator.Allocator.TakeTurn | packages/chain/src/live-0g.ts:697-706 | a call whose predecessor settled gets the pending count or the fresh floor, whichever is higher |
| NonceAllocator.Allocator.Finish | packages/chain/src/live-0g.ts:706-713 | an accepted send moves the floor past its nonce; a failed one moves nothing and settles the call all the same |
| NonceAllocator.CallsRunInOrder | packages/chain/src/live-0g.ts:695-713 | however calls overlap, one is under way or over only when every earlier call of its account is over |
| NonceAllocator.SomeCallCanRun | packages/chain/src/live-0g.ts:710-713 | behind every waiting call some call of its account has its turn or is being answered, whatever failed before |
| NonceAllocator.NeverSkipsAhead | packages/chain/src/live-0g.ts:692-714 | unless transactions are lost, no nonce past the true next one is ever chosen or under way, however far the node lags |
| NonceAllocator.SkipsExactly | packages/chain/src/live-0g.ts:692-714 | in every run a nonce past the true next one is chosen iff the last accepted nonce is at or past the true next one and was accepted less than the floor's lifetime ago |
| NonceAllocator.AheadByLoss | packages/chain/src/live-0g.ts:692-714 | in every run the last accepted nonce lies at or past the true next one iff some nonce at or below it was lost and not accepted since |
| NonceAllocator.PauseRecovers | packages/chain/src/live-0g.ts:45-51 | one pause as long as the floor lives makes the next choice the node's own count |
| NonceAllocator.SteadySendingStaysStranded | packages/chain/src/live-0g.ts:45-51 | sending just inside the floor's lifetime keeps the choice past the true next nonce for as long as one likes |
| NonceAllocator.NoncesRise | packages/chain/src/live-0g.ts:697-707 | two accepted sends in a row rise iff the floor was fresh or the node had counted the first |
| NonceAllocator.BurstIsIncreasing | packages/chain/src/live-0g.ts:697-707 | over a burst the accepted nonces strictly increase |
| NonceAllocator.NoGaps | packages/chain/src/live-0g.ts:685-714 | unless transactions are lost, accepted nonces fill the range up to the true next one exactly, failed sends or not |
| CreationSearch.CreationBlockBySearch | scripts/set-deployment.ts:262-283 | the block found has code and its predecessor has none; it is the creation block for every consistent node; when and where it gives up; k gallop probes bring at most 2k+4 bisection probes, and k is logarithmic in the head |
| Upstreams.WritesAreSerialized | packages/middleware/src/upstream-store.ts:101-131 | the file is always the boot image or a past snapshot, snapshots land in call order, the queue holds the newest |
| Upstreams.DrainedMeansSaved | packages/middleware/src/upstream-store.ts:113-124 | drained, with the last write landed, the file is the table and a reboot finds it |
| Upstreams.ReloadIsExact | packages/middleware/src/upstream-store.ts:41-84 | a written table loads back to its entries the guard accepts iff every id has at most fifteen digits, and otherwise not at all |
| Upstreams.SixteenDigitsDoNotReload | packages/middleware/src/app.ts:849-868 | an id the admin route accepts for which the file does not load |
| Upstreams.LoadedExactly | packages/middleware/src/upstream-store.ts:41-84 | a mapping is loaded iff the file has it under a well-formed id and the guard accepts it; loading fails iff the file is malformed |
| Upstreams.OpensExactly | packages/middleware/src/upstream-store.ts:41-84 | a store opens iff there is no file, and then empty, or the file is an object whose members can all be read |
| Upstreams.IdsAreSorted | packages/middleware/src/upstream-store.ts:94-98 | mappings are listed by ascending id |
| UpstreamStores.UpstreamStore.LoadSync | packages/middleware/src/upstream-store.ts:41-84 | the loop over the entries skips refused ones and fails on a malformed one |
| UpstreamStores.UpstreamStore.Set | packages/middleware/src/upstream-store.ts:101-104 | maps and queues one snapshot |
| UpstreamStores.UpstreamStore.Delete | packages/middleware/src/upstream-store.ts:107-110 | queues a snapshot iff something was unmapped |
| UpstreamStores.UpstreamStore.WriteNext | packages/middleware/src/upstream-store.ts:117-131 | the oldest snapshot is written or its write rejects, and the queue goes on |
| UpstreamStores.UpstreamStore.Flush | packages/middleware/src/upstream-store.ts:113-115 | all queued writes settle; if the last landed the file is the last snapshot |
| UpstreamStores.UpstreamStore.List | packages/middleware/src/upstream-store.ts:94-98 | exactly the mappings, by ascending id |
| UpstreamStores.SelfMapRoute.Post | packages/middleware/src/app.ts:930-981 | the five refusals in order; an accepted request moves timestamp and mapping together and queues one write |
| SelfMapping.LiveIsNewest | packages/middleware/src/app.ts:961-978 | without admin writes the live mapping is the URL of the service's sound request with the largest timestamp, whatever the order of arrival and however often replayed |
| SelfMapping.AcceptedMeansSigned | packages/middleware/src/app.ts:942-959 | an accepted request was signed by the owner over exactly its fields, and over no payment proof |
| SelfMapping.RefusalsAreExact | packages/middleware/src/app.ts:930-978 | each of the five refusals, and the acceptance, iff its own condition on request, service and newest timestamp |
| ActivityFeed.ListRecentActivity | packages/chain/src/live-0g.ts:564-631 | paging before stamping equals stamping every log, ordering by block and log index descending and taking the limit; at most that many distinct headers are read, all of the feed's blocks |
| ActivityFeed.ReadTimes | packages/chain/src/live-0g.ts:614-622 | each block of the page is fetched once |
| ActivityFeed.OrderIsUnique | packages/chain/src/live-0g.ts:603-606 | the same logs have one order, newest first |
| Client.FetchPaid | packages/client/src/index.ts:219-397 | the sequential code has exactly the effects and the outcome of the recursive description that `Client.ExchangeIsExact` and the next rows are about, for every way the outside may answer |
| Client.PresentProof | packages/client/src/index.ts:367-397 | the retry loop sends and waits exactly as the recursive description does |
| Client.ExchangeIsExact | packages/client/src/index.ts:219-397 | of every call: the request is sent iff the URL is allowed, the outcome is that of the last reply, with its own status or error, and after the payment the proof of that payment is presented in turn with pauses of the seconds asked for, cut at thirty, as long as a 402 asks to wait and six times at most |
| Client.PresentingTakesTurns | packages/client/src/index.ts:367-397 | the same of the retry loop from any attempt on |
| Client.AtMostOnePayment | packages/client/src/index.ts:219-397 | at most one payment, only of an approved invoice; at most seven requests; at most five waits after the settling one, of at most thirty seconds each |
| Client.ApprovedMayBePaid | packages/client/src/index.ts:88-121 | an approved invoice is an entry of the reply for this network, unexpired, within the cap, with the expected payee, service and router |
| Client.MayBePaidIsApproved | packages/client/src/index.ts:88-121 | and the first entry for scheme and network is approved whenever it may be paid |
| Client.GuardsAreExact | packages/client/src/index.ts:264-307 | a parsed invoice is refused over its price iff above the cap, otherwise over a mismatch iff payee, service or router is not the expected one |
| Client.OtherNetworkExactly | packages/client/src/index.ts:88-121 | a body is of another network iff it offers the scheme but never on this one |
| Client.ResultTellsPayment | packages/client/src/index.ts:317-397 | paid means the payment went through and the proof was presented, signed where needed; the only errors that can follow a payment |
| Client.SignerIsCheckedAfterPaying | packages/client/src/index.ts:310-349 | the unsupported-signer error occurs iff everything else was in order and the payment has gone through |
| Client.PaymentFailuresExactly | packages/client/src/index.ts:310-349 | a failed transfer is reported iff an approved invoice could not be paid, a failed signing iff it was paid and the signing, where needed and supported, failed |
| ShellQuote.QuotedIsRead | packages/cli/src/wrap.ts:77-79 | anywhere in a command line a quoted string is read as its value |
| ShellQuote.QuotedIsOneWord | packages/cli/src/wrap.ts:77-79 | alone it is exactly one word equal to the value, for every string |
| ShellQuote.RetryCommandIsRead | packages/cli/src/wrap.ts:86-93 | the retry command is read as exactly its ten words, with the token from the environment, for every URL and body |

## Left out

- Express, helmet, rate limits, header and body parsing, and the streaming of upstream answers: the proxy is an event that brings a status or a failure on the gateway's side.
- The checks before the proof is read (unmapped upstream, unsupported body, host resolution): they change no state and end the request. A malformed proof is answered like a missing one.
- The `pending` verdict of the live client inside the state machine, which runs on the mock chain, where it does not occur; `Verification` covers it.
- Locks, fsync and directories: a file write is one atomic step that happens or throws, a two-file flush is two, and one instance of the gateway runs.
- JSON, base64 and UTF-8: a file holds values, a message is a string of characters, and lone surrogates, which the encoder would replace, do not exist in the model.
- SHA-256 is taken to be injective, JSON texts of different payloads to be different, and signatures to be unforgeable.
- Randomness: a drawn invoice nonce is assumed never to have been issued before.
- The service cache of the gateway appears only as an active flag that may be out of date; the other fields of a service never change on this chain.
- A service's owner, or its attestor, may record attestations past the gateway; the state machine assumes they do not, and lets everyone else try any chain operation.
- `recordFailure` is never called by the gateway, so in the state machine entries leave the queue by removal or age only; the budget is proved of the queue itself.
- The state machine runs on the mock chain, where every payment has a hash of its own; on the live chain one transaction may settle several invoices (see `PendingQueue.EnqueueDropsExactly`).
- The in-memory attestation queue has the file queue's mechanics without the files, and no separate class here.
- What the loader's shape guard for queue entries tests: a row is well formed or not, and a stored total is an integer.
- Graceful shutdown, sweeper and retry timers as such: a timer is an event that may come at any time.
- Registry-only deployments, RPC errors and viem in the live client; `historyRange`, which only bounds block numbers.
- The Solidity contracts, the dashboard, the command-line plumbing, the MCP server, the oracle and the host-range checks of the network guard: they would add members without adding state or protocol.
- SelfMapping.LiveIsNewest: timestamps are remembered since boot only, as in the code, so an older signed request may be accepted once after a restart within its window of two minutes.
- Client.FetchPaid: the service id of an invoice is taken to be a number; the code does not check that.
- NonceAllocator.Allocator.TakeTurn: the pending count is taken to be at most the true next nonce at the moment of the choice; a transaction lost between the node's count and the choice is not modelled.
- NonceAllocator.SteadySendingStaysStranded: the node is taken to accept transactions past a missing nonce, in any number; a node that refuses some ends the run earlier.
- InvoiceStores.FileInvoiceStore.Put: invoice nonces are numbers; a presented string that is not a canonical decimal matches no invoice.
