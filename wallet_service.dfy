/**
 * The wallet service and payment orchestrator as an object: its backend and
 * its pending-transaction table are updated step by step, and each method is
 * proved to leave exactly the state the matching function of
 * `WalletOperations` describes.
 */
module WalletService {
  import opened Wrappers
  import opened YankiWalletModel
  import opened Records
  import opened Infrastructure
  import opened WalletOperations

  class YankiWalletService {
    const env: Backend
    /** inquiry id -> suspended transfer. */
    var pendingTransactions: map<Id, PendingTransaction>

    function State(): Service
      reads this, env
    {
      Service(env.State(), pendingTransactions)
    }

    ghost predicate Valid()
      reads this, env
    {
      Invariant(State())
    }

    constructor (env: Backend)
      requires env.Valid()
      ensures Valid() && this.env == env && pendingTransactions == map[]
    {
      this.env := env;
      pendingTransactions := map[];
    }

    method CreateWallet(candidate: WalletCandidate, now: Time) returns (r: Result<Wallet, ServiceError>)
      requires Valid()
      modifies env
      ensures Valid()
      ensures var o := Register(old(State()), candidate, now); r == o.result && State() == o.after
    {
      RegisterOutcome(State(), candidate, now);
      if candidate.phoneNumber in env.store {
        return Failure(DuplicatePhoneNumber);
      }
      if DocumentTaken(env.store, candidate.documentNumber) {
        return Failure(DuplicateDocumentNumber);
      }
      var id := env.FreshId();
      var saved := Registered(candidate, id, now);
      env.SaveWallet(saved);
      env.Publish(WalletCreated(saved.id, saved.phoneNumber, saved.documentNumber,
                                saved.documentType, saved.email, saved.createdAt));
      env.CacheWallet(saved.phoneNumber, saved);
      r := Success(saved);
    }

    /** Cache-aside read. */
    method FindByPhoneNumber(phone: Phone) returns (r: Result<Wallet, ServiceError>)
      requires Valid()
      modifies env`cache
      ensures Valid()
      ensures var o := Find(old(State()), phone); r == o.result && State() == o.after
    {
      FindKeepsInvariant(State(), phone);
      if phone in env.cache {
        return Success(env.cache[phone]);
      }
      if phone !in env.store {
        return Failure(WalletNotFound(phone));
      }
      var w := env.store[phone];
      env.CacheWallet(phone, w);
      r := Success(w);
    }

    method AssociateDebitCard(phone: Phone, creditId: Option<string>, now: Time)
      returns (r: Result<Wallet, ServiceError>)
      requires Valid()
      modifies env
      ensures Valid()
      ensures var o := LinkCard(old(State()), phone, creditId, now); r == o.result && State() == o.after
    {
      LinkCardKeepsInvariant(State(), phone, creditId, now);
      var found := FindByPhoneNumber(phone);
      if found.Failure? {
        return Failure(found.error);
      }
      var updated := LinkOnEntity(found.value, creditId, now);
      env.SaveWallet(updated);
      env.Publish(CardAssociated(updated.id, updated.phoneNumber, creditId, updated.updatedAt));
      env.CacheWallet(phone, updated);
      r := Success(updated);
    }

    /** `wallet.associateCard(creditId)` on the entity the lookup produced. */
    method LinkOnEntity(snapshot: Wallet, creditId: Option<string>, now: Time) returns (updated: Wallet)
      ensures updated == WithCard(snapshot, creditId, now)
    {
      var wallet := new YankiWallet.FromSnapshot(snapshot);
      wallet.AssociateCard(creditId, now);
      updated := wallet.Snapshot();
    }

    method ProcessPayment(fromPhone: Phone, toPhone: Phone, amount: int, description: string, now: Time)
      returns (r: Result<Transaction, ServiceError>)
      requires Valid()
      modifies this, env
      ensures Valid()
      ensures var o := Pay(old(State()), fromPhone, toPhone, amount, description, now);
              r == o.result && State() == o.after
    {
      PayKeepsInvariant(State(), fromPhone, toPhone, amount, description, now);
      r := InitiatePayment(fromPhone, toPhone, amount, description, now);
      if r.Success? && r.value.status == COMPLETED {
        env.EvictWalletCache(fromPhone);
        env.EvictWalletCache(toPhone);
      }
    }

    /** The lookup and the two regimes of `processPayment`, before its completion hook. */
    method InitiatePayment(fromPhone: Phone, toPhone: Phone, amount: int, description: string, now: Time)
      returns (r: Result<Transaction, ServiceError>)
      requires Valid()
      modifies this, env
      ensures Valid()
      ensures var o := Initiate(old(State()), fromPhone, toPhone, amount, description, now);
              r == o.result && State() == o.after
    {
      InitiateKeepsInvariant(State(), fromPhone, toPhone, amount, description, now);
      FindKeepsInvariant(State(), fromPhone);
      var found := FindByPhoneNumber(fromPhone);
      if found.Failure? {
        return Failure(found.error);
      }
      var fromWallet := found.value;
      if HasCard(fromWallet) {
        var transactionId := ValidateCreditBalanceViaKafka(fromWallet, toPhone, amount, description, now);
        r := Success(Transaction(transactionId, amount, fromWallet.id, None, fromWallet.phoneNumber,
                                 toPhone, description, PENDING, now));
      } else {
        var source := new YankiWallet.FromSnapshot(fromWallet);
        if !source.HasSufficientBalance(amount) {
          return Failure(InsufficientBalance);
        }
        r := ProceedWithYankiPayment(source, toPhone, amount, description, now);
      }
    }

    /** The immediate regime: the source is not card-linked and its balance suffices. */
    method ProceedWithYankiPayment(source: YankiWallet, toPhone: Phone, amount: int, description: string,
                                   now: Time)
      returns (r: Result<Transaction, ServiceError>)
      requires Valid()
      requires source.phoneNumber in env.store && SameProfile(source.Snapshot(), env.store[source.phoneNumber])
      modifies source, env
      ensures Valid()
      ensures var o := PayNow(old(State()), old(source.Snapshot()), toPhone, amount, description, now);
              r == o.result && State() == o.after
    {
      PayNowKeepsInvariant(State(), source.Snapshot(), toPhone, amount, description, now);
      var found := FindByPhoneNumber(toPhone);
      if found.Failure? {
        return Failure(found.error);
      }
      var target := new YankiWallet.FromSnapshot(found.value);
      var transaction := TransferImmediately(source, target, toPhone, amount, description, now);
      r := Success(transaction);
    }

    /** The body of the immediate regime, once the destination is found. */
    method TransferImmediately(source: YankiWallet, target: YankiWallet, toPhone: Phone, amount: int,
                               description: string, now: Time)
      returns (transaction: Transaction)
      requires source != target
      modifies source, target, env
      ensures env.State() == ImmediateEffects(old(env.State()), old(source.Snapshot()), old(target.Snapshot()),
                                              toPhone, amount, description, now)
      ensures transaction == Transaction(old(env.nextId), amount, old(source.id), Some(old(target.id)),
                                         old(source.phoneNumber), toPhone, description, COMPLETED, now)
    {
      var toWalletHasCard := HasCard(target.Snapshot());
      source.UpdateBalance(amount, false, now);
      if !toWalletHasCard {
        target.UpdateBalance(amount, true, now);
      }
      var transactionId := env.FreshId();
      transaction := Transaction(transactionId, amount, source.id, Some(target.id), source.phoneNumber,
                                 toPhone, description, COMPLETED, now);
      env.SaveWallet(source.Snapshot());
      if !toWalletHasCard {
        env.SaveWallet(target.Snapshot());
        var recordId := env.FreshId();
        env.SaveTransaction(TransferRecord(recordId, transactionId, amount, source.Snapshot(),
                                           target.Snapshot(), toPhone, description, now));
      } else {
        var paymentId := env.FreshId();
        env.Publish(TransactionPaymentRequest(paymentId, target.associatedCreditId, amount,
                      "Yanki Transfer from " + source.phoneNumber + ": " + description,
                      target.documentNumber, now, SOURCE));
      }
    }

    /** Suspend a payment from a card-linked wallet and ask the credit system to cover it. */
    method ValidateCreditBalanceViaKafka(fromWallet: Wallet, toPhone: Phone, amount: int,
                                         description: string, now: Time)
      returns (transactionId: Id)
      requires Valid() && HasCard(fromWallet)
      modifies this`pendingTransactions, env`nextId, env`events
      ensures Valid()
      ensures var v := Suspend(old(State()), fromWallet, toPhone, amount, description, now);
              transactionId == v.transactionId && State() == v.after
    {
      SuspendKeepsInvariant(State(), fromWallet, toPhone, amount, description, now);
      var inquiryId := env.FreshId();
      transactionId := env.FreshId();
      var inquiry := CreditBalanceInquiry(inquiryId, fromWallet.associatedCreditId, amount, SOURCE,
                                          transactionId, fromWallet.phoneNumber, toPhone, description);
      pendingTransactions := pendingTransactions[inquiryId :=
        PendingTransaction(fromWallet, toPhone, amount, description, now, transactionId)];
      env.Publish(inquiry);
    }

    /** Deferred completion: take the pending transfer (at most once) and, if approved, settle it. */
    method ProcessCreditBalanceResponse(response: CreditBalanceResponse, now: Time)
      requires Valid()
      modifies this, env
      ensures Valid()
      ensures State() == Resolve(old(State()), response, now)
    {
      ResolveAtMostOnce(State(), response, now, now);
      var inquiryId := response.inquiryId;
      if inquiryId !in pendingTransactions {
        return;
      }
      var pending := pendingTransactions[inquiryId];
      pendingTransactions := pendingTransactions - {inquiryId};
      if response.isValid {
        var _ := ProceedWithPayment(pending.fromWallet, pending.toPhoneNumber, pending.amount,
                                    pending.description, now);
      }
    }

    /** Settle a payment the credit system approved. */
    method ProceedWithPayment(fromWallet: Wallet, toPhone: Phone, amount: int, description: string, now: Time)
      returns (r: Result<Transaction, ServiceError>)
      requires Valid()
      requires !HasCard(fromWallet) ==>
                 fromWallet.phoneNumber in env.store &&
                 SameProfile(fromWallet, env.store[fromWallet.phoneNumber])
      modifies env
      ensures Valid()
      ensures var o := Settle(old(State()), fromWallet, toPhone, amount, description, now);
              r == o.result && State() == o.after
    {
      SettleKeepsInvariant(State(), fromWallet, toPhone, amount, description, now);
      var found := FindByPhoneNumber(toPhone);
      if found.Failure? {
        return Failure(found.error);
      }
      var source := new YankiWallet.FromSnapshot(fromWallet);
      var target := new YankiWallet.FromSnapshot(found.value);
      var transaction := TransferAfterApproval(source, target, toPhone, amount, description, now);
      r := Success(transaction);
    }

    /** The body of deferred completion, once the destination is found. */
    method TransferAfterApproval(source: YankiWallet, target: YankiWallet, toPhone: Phone, amount: int,
                                 description: string, now: Time)
      returns (transaction: Transaction)
      requires source != target
      modifies source, target, env
      ensures env.State() == DeferredEffects(old(env.State()), old(source.Snapshot()), old(target.Snapshot()),
                                             toPhone, amount, description, now)
      ensures transaction == Transaction(old(env.nextId), amount, old(source.id), Some(old(target.id)),
                                         old(source.phoneNumber), toPhone, description, COMPLETED, now)
    {
      var fromWallet, toWallet := source.Snapshot(), target.Snapshot();
      var fromWalletHasNoCard := !HasCard(fromWallet);
      var toWalletHasNoCard := !HasCard(toWallet);
      if fromWalletHasNoCard {
        source.UpdateBalance(amount, false, now);
      }
      if toWalletHasNoCard {
        target.UpdateBalance(amount, true, now);
      }
      var transactionId := env.FreshId();
      transaction := Transaction(transactionId, amount, source.id, Some(target.id),
                                 source.phoneNumber, toPhone, description, COMPLETED, now);
      if fromWalletHasNoCard {
        env.SaveWallet(source.Snapshot());
      }
      if toWalletHasNoCard {
        env.SaveWallet(target.Snapshot());
        var recordId := env.FreshId();
        env.SaveTransaction(TransferRecord(recordId, transactionId, amount, source.Snapshot(),
                                           target.Snapshot(), toPhone, description, now));
      }
      SendKafkaEvents(source.Snapshot(), target.Snapshot(), amount, description, now);
    }

    /** Publish the notifications `CrossNotifications` selects, drawing their ids. */
    method SendKafkaEvents(from: Wallet, to: Wallet, amount: int, description: string, now: Time)
      modifies env`events, env`nextId
      ensures var notes := CrossNotifications(from, to, amount, description, old(env.nextId), now);
              env.events == old(env.events) + notes && env.nextId == old(env.nextId) + |notes|
    {
      var notifications := CrossNotifications(from, to, amount, description, env.nextId, now);
      env.nextId := env.nextId + |notifications|;
      env.events := env.events + notifications;
    }
  }
}
