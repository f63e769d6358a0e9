# Yanki wallet service: a Dafny model

This project models the ledger and payment orchestration of the Yanki
mobile-wallet service. Yanki wallets are phone-addressed accounts. A wallet
can be linked to an external credit card.

The model covers four parts:

- **The wallet entity** (`YankiWallet`): credit, debit, the sufficiency test,
  card association and activation.
- **The wallet service** (`YankiWalletService`), which is also the payment
  orchestrator:
  - registration, with duplicate checks;
  - a cache-aside lookup;
  - card association;
  - a payment with two regimes. A payment from an unlinked wallet settles at
    once. A payment from a card-linked wallet is suspended in a pending table
    until the credit system answers a balance inquiry.
  - the deferred completion that consumes the pending entry.
- **The external payment service** (`YankiPaymentServiceImpl`), which carries
  out wallet-to-wallet transfers requested by other systems.
- **The balance-validation responder** (`YankiBalanceValidationServiceImpl`).

The backend (`Infrastructure.Backend`) gathers the service's collaborators in
one object:

- the wallet store, as a map keyed by phone;
- the look-aside wallet cache, as a map;
- the transaction store, as an append-only sequence of records;
- the outbound event channel, as an append-only sequence of events tagged by
  kind;
- a counter that supplies every fresh id.

Timestamps are a `now` parameter of each operation.

The model is organised in layers:

- Wallets are value snapshots (`YankiWalletModel.Wallet`). Every lookup
  yields a copy, and a pending entry keeps its own copy.
- Each mutation builds a `YankiWallet` object from a snapshot, changes it in
  place and saves its snapshot back.
- `WalletOperations` describes what each wallet-service operation does to the
  whole state, as a function of the state before it.
- The imperative methods of `WalletService.YankiWalletService` are proved to
  perform exactly those functions.
- The properties are lemmas about the functions.
- `PaymentService` and `BalanceValidation` follow the same pattern.

The state invariant (`WalletOperations.Invariant`) has four parts:

- Every wallet is stored under its own phone, with an id already drawn.
- Phones, document numbers and ids are unique.
- A cached snapshot agrees with the stored wallet on every profile field.
  Its balance, card and status may be stale.
- Every pending entry has a drawn inquiry id and a drawn provisional
  transaction id, and it comes from a card-linked wallet.

Amounts are integers in minor currency units, and `BigDecimal` addition and
subtraction are exact on them. A card is linked when the credit id is present
and non-empty.

Three behaviours are reproduced as the code has them:

- **Stale cache entries.** Deferred completion and the external payment
  service update the store without touching the cache. The balance-validation
  responder and later lookups may therefore see a stale balance, and an
  immediate payment debits the snapshot the lookup produced.
  `WalletOperations.SettleLeavesDestinationStale` and
  `WalletOperations.PaySettlesAtOnce` state this.
- **Self-transfers.** Both copies of the wallet are read before either is
  saved, and the later save wins, so the wallet gains the amount.
  - The external payment service saves the debited copy and then the
    credited one, in sequence (`PaymentService.SelfPaymentCredits`).
  - The wallet service's immediate payment issues both saves together under
    `Mono.when`, which fixes no order. The model performs them in the order
    they are listed, source first, and `WalletOperations.PaySelfCredits`
    describes the outcome under that order.
- **Deferred completion uses the pending snapshot.** It decides whether the
  source is card-linked from the snapshot kept in the pending entry, and does
  not look the source up again.

## Model

| member | source | states |
|---|---|---|
| YankiWalletModel.CompareTo | src/main/java/com/bank/yanki/domain/model/YankiWallet.java:58-60 | `BigDecimal.compareTo` as a sign: negative exactly when `a < b`, zero exactly when equal |
| YankiWalletModel.SufficientBalanceIff | src/main/java/com/bank/yanki/domain/model/YankiWallet.java:58-60 | `hasSufficientBalance(a)` holds if and only if `balance >= a` (a balance equal to the amount suffices) |
| YankiWalletModel.BalanceUpdated | src/main/java/com/bank/yanki/domain/model/YankiWallet.java:49-56 | `updateBalance` changes only `balance` and `updatedAt`; an addition raises the balance by exactly the amount and a subtraction lowers it by exactly the amount |
| YankiWalletModel.WithCard | src/main/java/com/bank/yanki/domain/model/YankiWallet.java:44-47 | `associateCard(c)` sets the credit id to `c`, stamps `updatedAt` with the time of the call, and changes nothing else |
| YankiWalletModel.Activated | src/main/java/com/bank/yanki/domain/model/YankiWallet.java:39-42 | `activate` sets the status to ACTIVE, stamps `updatedAt` with the time of the call, and changes nothing else |
| YankiWalletModel.UpdateBalanceRoundTrip | src/main/java/com/bank/yanki/domain/model/YankiWallet.java:49-56 | a credit followed by a debit of the same amount (or the reverse) restores the original balance exactly |
| YankiWalletModel.DebitAfterSufficiencyCheck | src/main/java/com/bank/yanki/domain/model/YankiWallet.java:49-60 | a debit that passed the sufficiency test leaves a non-negative balance |
| YankiWalletModel.MutationsKeepProfile | src/main/java/com/bank/yanki/domain/model/YankiWallet.java:39-56 | no entity mutation changes id, document, document type, phone, IMEI, e-mail or creation time |
| YankiWalletModel.YankiWallet.constructor | src/main/java/com/bank/yanki/domain/model/YankiWallet.java:20-37 | an entity object read back from a snapshot holds exactly that snapshot |
| YankiWalletModel.YankiWallet.Activate | src/main/java/com/bank/yanki/domain/model/YankiWallet.java:39-42 | the object's new state is `Activated` of its old state |
| YankiWalletModel.YankiWallet.AssociateCard | src/main/java/com/bank/yanki/domain/model/YankiWallet.java:44-47 | the object's new state is `WithCard` of its old state |
| YankiWalletModel.YankiWallet.UpdateBalance | src/main/java/com/bank/yanki/domain/model/YankiWallet.java:49-56 | the object's new state is `BalanceUpdated` of its old state |
| Ledger.TransferKeepsTotal | src/main/java/com/bank/yanki/domain/service/impl/YankiPaymentServiceImpl.java:111-115 | debiting one stored wallet and crediting another, distinct one by the same amount leaves the total of all balances unchanged |
| Infrastructure.Backend.constructor | src/main/java/com/bank/yanki/domain/service/YankiWalletService.java:43-48 | an empty store, cache, record log and event log satisfy the store invariant |
| Infrastructure.Backend.FreshId | src/main/java/com/bank/yanki/domain/service/YankiWalletService.java:251 | each `UUID.randomUUID()` yields an id never drawn before: the counter's value, which then advances |
| Infrastructure.Backend.FindStored | src/main/java/com/bank/yanki/domain/service/impl/YankiPaymentServiceImpl.java:58-61 | `walletRepository.findByPhoneNumber` yields the stored wallet exactly when the phone is stored |
| Infrastructure.Backend.SaveWallet | src/main/java/com/bank/yanki/domain/service/YankiWalletService.java:264-267 | `walletRepository.save` is an upsert under the wallet's phone |
| Infrastructure.Backend.CacheWallet | src/main/java/com/bank/yanki/domain/service/YankiWalletService.java:124-126 | `cacheWallet` writes the snapshot under the phone |
| Infrastructure.Backend.EvictWalletCache | src/main/java/com/bank/yanki/domain/service/YankiWalletService.java:223-224 | `evictWalletCache` removes the phone's entry and nothing else |
| Infrastructure.Backend.SaveTransaction | src/main/java/com/bank/yanki/domain/service/YankiWalletService.java:290 | `yankiTransactionRepository.save` appends one record |
| Infrastructure.Backend.Publish | src/main/java/com/bank/yanki/domain/service/YankiWalletService.java:306 | every producer call appends exactly one event to the outbound log |
| WalletOperations.Register | src/main/java/com/bank/yanki/domain/service/YankiWalletService.java:61-102 | the state function of `createWallet`; its properties are stated by RegisterOutcome and RegisterTwiceRefused |
| WalletOperations.Find | src/main/java/com/bank/yanki/domain/service/YankiWalletService.java:114-129 | the state function of `findByPhoneNumber`; its properties are stated by FindKeepsInvariant, FindIdempotent and FindIndependent |
| WalletOperations.LinkCard | src/main/java/com/bank/yanki/domain/service/YankiWalletService.java:142-165 | the state function of `associateDebitCard`; its properties are stated by LinkCardOutcome |
| WalletOperations.Suspend | src/main/java/com/bank/yanki/domain/service/YankiWalletService.java:373-399 | the state function of `validateCreditBalanceViaKafka`; its properties are stated by SuspendKeepsInvariant and PayFromCardSuspends |
| WalletOperations.Initiate | src/main/java/com/bank/yanki/domain/service/YankiWalletService.java:185-218 | the dispatch of `processPayment` between suspension, refusal and immediate payment; stated by PayFromCardSuspends, PayRejectsInsufficient and InitiateKeepsInvariant |
| WalletOperations.PayNow | src/main/java/com/bank/yanki/domain/service/YankiWalletService.java:232-311 | the state function of `proceedWithYankiPayment`; stated by PaySettlesAtOnce, PaySelfCredits and PayNowKeepsInvariant |
| WalletOperations.ImmediateEffects | src/main/java/com/bank/yanki/domain/service/YankiWalletService.java:237-308 | the saves, record and payment request of an immediate payment once the destination is found; stated by PaySettlesAtOnce |
| WalletOperations.Pay | src/main/java/com/bank/yanki/domain/service/YankiWalletService.java:185-230 | the state function of `processPayment`, eviction included; stated by PaySettlesAtOnce, PayConservesTotal and PayKeepsInvariant |
| WalletOperations.DeferredEffects | src/main/java/com/bank/yanki/domain/service/YankiWalletService.java:446-512 | the saves, record and notifications of a deferred payment once the destination is found; stated by SettleOutcome |
| WalletOperations.Settle | src/main/java/com/bank/yanki/domain/service/YankiWalletService.java:441-514 | the state function of `proceedWithPayment`; stated by SettleOutcome, SettleKeepsInvariant and SettleLeavesDestinationStale |
| WalletOperations.Resolve | src/main/java/com/bank/yanki/domain/service/YankiWalletService.java:410-439 | the state function of `processCreditBalanceResponse`; stated by ResolveUnknownIsNoOp, ResolveRejectedOnlyRemoves, ResolveAtMostOnce and ResolveApprovedNeverDebitsSource |
| WalletOperations.Registered | src/main/java/com/bank/yanki/domain/service/YankiWalletService.java:73-78 | a new wallet is ACTIVE, stamped `now` for creation and update, with the supplied balance or 0 when none was given |
| WalletOperations.RegisterOutcome | src/main/java/com/bank/yanki/domain/service/YankiWalletService.java:61-102 | an existing phone (checked first) or document fails and changes nothing; a new phone with a new document always succeeds; a success stores and caches the submitted wallet itself (`Registered` of the candidate: every submitted field kept, ACTIVE, the given balance or 0, both timestamps `now`) under an id no stored wallet has, with exactly one WalletCreated event, and the invariant holds |
| WalletOperations.RegisterTwiceRefused | src/main/java/com/bank/yanki/domain/service/YankiWalletService.java:62-72 | after a registration the same phone is refused as a duplicate phone, and the same document is refused (as a duplicate document when the phone is new) without any change |
| WalletOperations.FindKeepsInvariant | src/main/java/com/bank/yanki/domain/service/YankiWalletService.java:114-129 | a lookup succeeds exactly for stored phones and only the cache changes; a cache hit returns the cached snapshot as it is and changes nothing; a miss on a stored phone returns exactly the stored wallet and caches it; an unknown phone fails with WalletNotFound and changes nothing; the invariant holds |
| WalletOperations.FindIdempotent | src/main/java/com/bank/yanki/domain/service/YankiWalletService.java:114-129 | a second lookup of the same phone is a cache hit returning the same snapshot and changing nothing |
| WalletOperations.FindIndependent | src/main/java/com/bank/yanki/domain/service/YankiWalletService.java:114-129 | a lookup does not change what a lookup of another phone yields |
| WalletOperations.LinkCardOutcome | src/main/java/com/bank/yanki/domain/service/YankiWalletService.java:142-165 | an unknown phone fails with WalletNotFound and nothing changes; otherwise the wallet saved and re-cached under the phone is the looked-up snapshot with the new credit id, exactly one CardAssociated event carries the same credit id, and nothing else changes |
| WalletOperations.LinkCardKeepsInvariant | src/main/java/com/bank/yanki/domain/service/YankiWalletService.java:142-165 | card association keeps the store invariant |
| WalletOperations.PayFromCardSuspends | src/main/java/com/bank/yanki/domain/service/YankiWalletService.java:191-210 | from a card-linked source no wallet changes and nothing is recorded; exactly one pending entry appears under a fresh inquiry id, holding the source snapshot, the requested destination, amount, description and the result id; exactly one inquiry carries that inquiry id, the source's credit id, the amount, the result id and both phones; the result is PENDING with no destination wallet |
| WalletOperations.PayRejectsInsufficient | src/main/java/com/bank/yanki/domain/service/YankiWalletService.java:213-216 | an unlinked source whose balance is below the amount fails with the insufficient-balance error before the destination is looked up: no save, no record, no event |
| WalletOperations.PayRejectsMissingDestination | src/main/java/com/bank/yanki/domain/service/YankiWalletService.java:234-242 | a missing destination fails with WalletNotFound before any debit: no save, no record, no event, no pending entry |
| WalletOperations.PaySettlesAtOnce | src/main/java/com/bank/yanki/domain/service/YankiWalletService.java:237-309 | an immediate payment between distinct wallets saves the source as exactly the looked-up snapshot debited by the amount; an unlinked destination is saved as exactly its snapshot credited by the amount, and one COMPLETED TRANSFER record is appended whose transaction id is the returned transaction's id; a card-linked destination is left unsaved and one payment request carries its credit id instead; the returned transaction is COMPLETED with both wallet ids, both phones, the amount and the description; no other wallet changes and neither party stays cached |
| WalletOperations.PaySelfCredits | src/main/java/com/bank/yanki/domain/service/YankiWalletService.java:232-311 | a payment from an unlinked wallet to itself ends with the looked-up balance plus the amount (the credited save overwrites the debited one), COMPLETED, with one transfer record, and the phone is evicted |
| WalletOperations.PayConservesTotal | src/main/java/com/bank/yanki/domain/service/YankiWalletService.java:237-268 | when the cache agrees with the store, an immediate payment between distinct unlinked wallets keeps the total of all balances |
| WalletOperations.PayNowKeepsInvariant | src/main/java/com/bank/yanki/domain/service/YankiWalletService.java:232-311 | the immediate regime keeps the store invariant |
| WalletOperations.InitiateKeepsInvariant | src/main/java/com/bank/yanki/domain/service/YankiWalletService.java:189-218 | both regimes keep the invariant, including the pending table's |
| WalletOperations.PayKeepsInvariant | src/main/java/com/bank/yanki/domain/service/YankiWalletService.java:185-230 | `processPayment`, eviction included, keeps the invariant |
| WalletOperations.CrossNotifications | src/main/java/com/bank/yanki/domain/service/YankiWalletService.java:313-371 | a card-linked sender yields a consumption request carrying the receiver's credit id, followed by a payment request carrying the sender's credit id and document if the receiver is card-linked too; a card-linked receiver alone yields one payment request; two unlinked wallets yield nothing; ids are consecutive from the first |
| WalletOperations.SuspendKeepsInvariant | src/main/java/com/bank/yanki/domain/service/YankiWalletService.java:373-399 | the inquiry id is fresh (not yet pending) and suspension keeps the invariant |
| WalletOperations.SettleKeepsInvariant | src/main/java/com/bank/yanki/domain/service/YankiWalletService.java:441-514 | deferred completion keeps the invariant, leaves the pending table alone and only draws ids forward |
| WalletOperations.SettleOutcome | src/main/java/com/bank/yanki/domain/service/YankiWalletService.java:441-514 | the source is debited only if unlinked, the destination credited only if unlinked; one COMPLETED record under fresh ids (not the provisional id) only when the destination is unlinked; the notifications are those `sendKafkaEvents` selects; no other wallet changes |
| WalletOperations.ResolveUnknownIsNoOp | src/main/java/com/bank/yanki/domain/service/YankiWalletService.java:413-418 | a response for an unknown or already-consumed inquiry id changes nothing |
| WalletOperations.ResolveRejectedOnlyRemoves | src/main/java/com/bank/yanki/domain/service/YankiWalletService.java:420-436 | a rejecting response only removes the pending entry |
| WalletOperations.ResolveAtMostOnce | src/main/java/com/bank/yanki/domain/service/YankiWalletService.java:410-439 | a response always consumes its pending entry and keeps the invariant, so a duplicate response changes nothing |
| WalletOperations.ResolveApprovedNeverDebitsSource | src/main/java/com/bank/yanki/domain/service/YankiWalletService.java:410-514 | every pending source is card-linked, so an approved completion never debits or saves it: only the destination's entry can change, credited by the amount when unlinked, and its record's ids differ from the provisional transaction id |
| WalletOperations.SettleLeavesDestinationStale | src/main/java/com/bank/yanki/domain/service/YankiWalletService.java:441-514 | after a completion that credits an uncached, unlinked destination by a non-zero amount, the lookup has cached its pre-credit snapshot, which no longer agrees with the store |
| WalletService.YankiWalletService.constructor | src/main/java/com/bank/yanki/domain/service/YankiWalletService.java:41-48 | a service over a backend satisfying the store invariant starts with an empty pending table and satisfies the invariant |
| WalletService.YankiWalletService.CreateWallet | src/main/java/com/bank/yanki/domain/service/YankiWalletService.java:61-102 | the result and the new state are exactly those of `Register`; the invariant is kept |
| WalletService.YankiWalletService.FindByPhoneNumber | src/main/java/com/bank/yanki/domain/service/YankiWalletService.java:114-129 | the result and the new state are exactly those of `Find`; only the cache may change |
| WalletService.YankiWalletService.AssociateDebitCard | src/main/java/com/bank/yanki/domain/service/YankiWalletService.java:142-165 | the result and the new state are exactly those of `LinkCard` |
| WalletService.YankiWalletService.LinkOnEntity | src/main/java/com/bank/yanki/domain/service/YankiWalletService.java:144-146 | `associateCard` on the entity built from the snapshot yields `WithCard` of it |
| WalletService.YankiWalletService.ProcessPayment | src/main/java/com/bank/yanki/domain/service/YankiWalletService.java:185-230 | the result and the new state are exactly those of `Pay`: both regimes, then eviction of both phones after a COMPLETED payment |
| WalletService.YankiWalletService.InitiatePayment | src/main/java/com/bank/yanki/domain/service/YankiWalletService.java:189-218 | the result and the new state are exactly those of `Initiate` |
| WalletService.YankiWalletService.ProceedWithYankiPayment | src/main/java/com/bank/yanki/domain/service/YankiWalletService.java:232-311 | the result and the new state are exactly those of `PayNow` for the source entity |
| WalletService.YankiWalletService.TransferImmediately | src/main/java/com/bank/yanki/domain/service/YankiWalletService.java:235-309 | the backend afterwards is exactly `ImmediateEffects` of the entities' snapshots, and the COMPLETED transaction has the first id drawn |
| WalletService.YankiWalletService.ValidateCreditBalanceViaKafka | src/main/java/com/bank/yanki/domain/service/YankiWalletService.java:373-399 | the returned transaction id and the new state are exactly those of `Suspend` |
| WalletService.YankiWalletService.ProcessCreditBalanceResponse | src/main/java/com/bank/yanki/domain/service/YankiWalletService.java:410-439 | the new state is exactly `Resolve` of the old one |
| WalletService.YankiWalletService.ProceedWithPayment | src/main/java/com/bank/yanki/domain/service/YankiWalletService.java:441-514 | the result and the new state are exactly those of `Settle` |
| WalletService.YankiWalletService.TransferAfterApproval | src/main/java/com/bank/yanki/domain/service/YankiWalletService.java:444-512 | the backend afterwards is exactly `DeferredEffects` of the entities' snapshots, and the COMPLETED transaction has the first id drawn |
| WalletService.YankiWalletService.SendKafkaEvents | src/main/java/com/bank/yanki/domain/service/YankiWalletService.java:313-371 | exactly the notifications `CrossNotifications` selects are appended, one fresh id each |
| PaymentService.Transfer | src/main/java/com/bank/yanki/domain/service/impl/YankiPaymentServiceImpl.java:108-120 | the state function of `processTransfer`; stated by TransferMovesAmount, SelfPaymentCredits and PaymentRecordsOnce |
| PaymentService.Checked | src/main/java/com/bank/yanki/domain/service/impl/YankiPaymentServiceImpl.java:73-83 | the sufficiency check before a transfer; stated by PaymentRespondsOnce and RefusedPaymentChangesNothing |
| PaymentService.YankiPayment | src/main/java/com/bank/yanki/domain/service/impl/YankiPaymentServiceImpl.java:53-88 | the corrected state function of `processYankiPayment`; stated by PaymentRespondsOnce, RefusedPaymentChangesNothing and PaymentKeepsInvariant |
| PaymentService.YankiPaymentAsWritten | src/main/java/com/bank/yanki/domain/service/impl/YankiPaymentServiceImpl.java:58-71 | `processYankiPayment` as written, where a missing wallet empties the zip; stated by ZipLosesMissingWallet and AsWrittenAgreesWhenBothExist |
| PaymentService.PaymentRespondsOnce | src/main/java/com/bank/yanki/domain/service/impl/YankiPaymentServiceImpl.java:52-88 | every request is answered by exactly one completion event echoing the payment id and request id, and it reports success exactly when both wallets exist and the source covers the amount |
| PaymentService.RefusedPaymentChangesNothing | src/main/java/com/bank/yanki/domain/service/impl/YankiPaymentServiceImpl.java:65-80 | a request that cannot be paid saves no wallet and records nothing; its message names the missing wallet (the source first) or the available and required amounts |
| PaymentService.TransferMovesAmount | src/main/java/com/bank/yanki/domain/service/impl/YankiPaymentServiceImpl.java:108-120 | between distinct wallets the source loses and the destination gains exactly the amount, the source stays non-negative, no other wallet changes, and the total of all balances is kept |
| PaymentService.SelfPaymentCredits | src/main/java/com/bank/yanki/domain/service/impl/YankiPaymentServiceImpl.java:108-120 | a payment from a wallet to itself leaves the store changed only at that phone, where the wallet is its stored copy credited by the amount, because the credited copy is saved last |
| PaymentService.PaymentRecordsOnce | src/main/java/com/bank/yanki/domain/service/impl/YankiPaymentServiceImpl.java:131-154 | a successful transfer appends exactly one COMPLETED TRANSFER record under a fresh id, with the request's payment id as transaction id, the amount, the description, both wallet ids and both phones |
| PaymentService.PaymentKeepsInvariant | src/main/java/com/bank/yanki/domain/service/impl/YankiPaymentServiceImpl.java:52-120 | every request keeps the store invariant |
| PaymentService.ZipLosesMissingWallet | src/main/java/com/bank/yanki/domain/service/impl/YankiPaymentServiceImpl.java:58-71 | as written, a request naming a wallet the store lacks gets no response at all, while the corrected version answers exactly once |
| PaymentService.AsWrittenAgreesWhenBothExist | src/main/java/com/bank/yanki/domain/service/impl/YankiPaymentServiceImpl.java:58-83 | as written and corrected agree whenever both wallets exist |
| PaymentService.YankiPaymentService.constructor | src/main/java/com/bank/yanki/domain/service/impl/YankiPaymentServiceImpl.java:31-35 | a service over a backend satisfying the store invariant is valid |
| PaymentService.YankiPaymentService.ProcessYankiPayment | src/main/java/com/bank/yanki/domain/service/impl/YankiPaymentServiceImpl.java:52-88 | the new backend is exactly `YankiPayment` (the corrected behaviour) of the old one; the invariant is kept |
| PaymentService.YankiPaymentService.ProcessTransfer | src/main/java/com/bank/yanki/domain/service/impl/YankiPaymentServiceImpl.java:108-120 | the new backend is exactly `Transfer` of the two entities' snapshots |
| PaymentService.YankiPaymentService.CreateTransactionRecord | src/main/java/com/bank/yanki/domain/service/impl/YankiPaymentServiceImpl.java:131-154 | exactly one record is appended, under a fresh id |
| PaymentService.YankiPaymentService.SendPaymentResponse | src/main/java/com/bank/yanki/domain/service/impl/YankiPaymentServiceImpl.java:164-182 | exactly one completion event is appended |
| BalanceValidation.WalletVerdict | src/main/java/com/bank/yanki/domain/service/impl/YankiBalanceValidationServiceImpl.java:77-105 | an inactive wallet is refused as WALLET_INACTIVE quoting 0; an active one is sufficient exactly when its balance is at least the required amount, and quotes its balance; sufficiency holds exactly when the status is SUFFICIENT_FUNDS |
| BalanceValidation.LookupVerdict | src/main/java/com/bank/yanki/domain/service/impl/YankiBalanceValidationServiceImpl.java:46-66 | the corrected answer to a lookup: not found gives WALLET_NOT_FOUND, another failure ERROR, a wallet its WalletVerdict; stated by ValidationVerdict |
| BalanceValidation.LookupVerdictAsWritten | src/main/java/com/bank/yanki/domain/service/impl/YankiBalanceValidationServiceImpl.java:46-66 | the answer as written, where every lookup failure gives ERROR; stated by MissingWalletAnsweredAsError |
| BalanceValidation.Validation | src/main/java/com/bank/yanki/domain/service/impl/YankiBalanceValidationServiceImpl.java:41-68 | the corrected state function of `processBalanceValidation`; stated by ValidationRespondsOnce and ValidationVerdict |
| BalanceValidation.ValidationAsWritten | src/main/java/com/bank/yanki/domain/service/impl/YankiBalanceValidationServiceImpl.java:41-68 | `processBalanceValidation` as written; stated by MissingWalletAnsweredAsError |
| BalanceValidation.ValidationRespondsOnce | src/main/java/com/bank/yanki/domain/service/impl/YankiBalanceValidationServiceImpl.java:41-68 | every request yields exactly one response echoing the validation id, the phone and the required amount, tagged `yanki-service`; no wallet is saved, nothing recorded, no id drawn; only the cache may gain the looked-up wallet |
| BalanceValidation.ValidationVerdict | src/main/java/com/bank/yanki/domain/service/impl/YankiBalanceValidationServiceImpl.java:41-105 | the response is sufficient exactly when the wallet is found, ACTIVE and covers the amount, and then the status is SUFFICIENT_FUNDS; an unknown phone gets WALLET_NOT_FOUND and an inactive wallet WALLET_INACTIVE, both quoting 0 |
| BalanceValidation.MissingWalletAnsweredAsError | src/main/java/com/bank/yanki/domain/service/impl/YankiBalanceValidationServiceImpl.java:46-66 | as written, an unknown phone is answered ERROR; the corrected version answers WALLET_NOT_FOUND; both deny sufficiency and quote a zero balance |
| BalanceValidation.YankiBalanceValidationService.constructor | src/main/java/com/bank/yanki/domain/service/impl/YankiBalanceValidationServiceImpl.java:25-28 | a responder over a valid wallet service is valid |
| BalanceValidation.YankiBalanceValidationService.ProcessBalanceValidation | src/main/java/com/bank/yanki/domain/service/impl/YankiBalanceValidationServiceImpl.java:41-68 | the new state is exactly `Validation` (the corrected behaviour) of the old one; the invariant is kept |
| BalanceValidation.YankiBalanceValidationService.ValidateWalletBalance | src/main/java/com/bank/yanki/domain/service/impl/YankiBalanceValidationServiceImpl.java:77-105 | exactly one response carrying `WalletVerdict` of the wallet is appended |
| BalanceValidation.YankiBalanceValidationService.SendValidationResponse | src/main/java/com/bank/yanki/domain/service/impl/YankiBalanceValidationServiceImpl.java:116-141 | exactly one response is appended, with the given flag, status and balance |
| BalanceValidation.YankiBalanceValidationService.SendValidationResponseWithoutBalance | src/main/java/com/bank/yanki/domain/service/impl/YankiBalanceValidationServiceImpl.java:151-154 | exactly one response is appended, quoting a zero balance |
| BalanceValidation.YankiBalanceValidationService.ProcessBalanceValidationResponse | src/main/java/com/bank/yanki/domain/service/impl/YankiBalanceValidationServiceImpl.java:164-169 | an inbound validation response changes no state |

## Left out

- **Kafka, Redis and Mongo plumbing.**
  - Topic names, message keys, JSON serialisation and listener dispatch are
    left out.
  - The consumers that call these services are left out.
  - The cache's time-to-live is left out.
  - Store and cache failures are left out. Every repository, cache and
    producer call succeeds.
  - The `onErrorResume` branches are therefore only partly modelled. The
    external payment service's error branch (`src/main/java/com/bank/yanki/domain/service/impl/YankiPaymentServiceImpl.java:84-87`) is unreachable in
    the model. In the validation responder's error branch, only a wallet that
    is not found reaches it.
- **Concurrency.** Each operation is one sequential step. This leaves out:
  - parallel saves under `Mono.when`;
  - fire-and-forget `.subscribe()`, both for cache writes and for deferred
    completion;
  - `ConcurrentHashMap` atomicity.

  The pending-table removal is a single take.
- **Floating point.** Amounts arrive as `Double` and go through
  `BigDecimal.valueOf`. The validator compares `doubleValue()`. The model
  uses exact integers throughout.
- **Free-form text.**
  - Log lines are left out.
  - The failure and success message texts of the external payment service
    are reduced to `PaymentMessage` constructors. The constructors keep the
    data the texts carry: the missing phone, or the available and required
    amounts.
  - The messages of validation responses are dropped.
  - Description strings of credit-system requests are modelled exactly.
- **Mongo ids and null fields.**
  - The store upserts by wallet id. The model keys it by phone, which is
    equivalent because no operation of the core changes a stored wallet's
    id or phone.
  - A null credit id is `None`. A null balance on registration is `None`.
  - Null request fields are not modelled.
- **The HTTP layer is not part of this model.** This covers the controller,
  with its error-to-status mapping, and the mapper.
- **Registration input.** The model does not copy the requested wallet's
  incoming status or timestamps. They are overwritten in any case.
- **`WalletService.YankiWalletService.TransferImmediately`,
  `WalletService.YankiWalletService.TransferAfterApproval` and
  `PaymentService.YankiPaymentService.ProcessTransfer`** require their two
  entity objects to be distinct. Each lookup builds a fresh object, and the
  callers pass fresh objects from separate lookups. Self-transfers are
  therefore still modelled, through two distinct copies.

## Findings

| source | as written | input that shows it | evidently intended | confidence | as-written member | corrected member |
|---|---|---|---|---|---|---|
| src/main/java/com/bank/yanki/domain/service/impl/YankiPaymentServiceImpl.java:58-71 | The two lookups are combined with `Mono.zip`. A zip with an empty side completes empty, so the null check is never reached and no completion event is sent. | A request whose source or destination phone is not stored. | One `success=false` response naming the missing phone, as the null check and its message show. | likely; not executed | PaymentService.YankiPaymentAsWritten, shown by PaymentService.ZipLosesMissingWallet | PaymentService.YankiPayment, with PaymentService.PaymentRespondsOnce and PaymentService.RefusedPaymentChangesNothing |
| src/main/java/com/bank/yanki/domain/service/impl/YankiBalanceValidationServiceImpl.java:46-66 | The lookup signals a missing wallet as an error, never as an empty result. The `switchIfEmpty` branch is never taken, and the error branch answers ERROR. | A validation request for a phone neither cached nor stored. | The dedicated WALLET_NOT_FOUND answer. | likely; not executed | BalanceValidation.ValidationAsWritten, shown by BalanceValidation.MissingWalletAnsweredAsError | BalanceValidation.Validation, with BalanceValidation.ValidationVerdict |
