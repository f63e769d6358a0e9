/**
 * The external payment service: another system asks, over the event channel,
 * for a transfer between two wallets.  The service reads both wallets straight
 * from the store (not through the cache), checks them, moves the money, records
 * the transfer and answers with one completion event correlated by the
 * request's payment and request ids.
 */
module PaymentService {
  import opened Wrappers
  import opened YankiWalletModel
  import opened Records
  import opened Infrastructure
  import opened Ledger

  /** The completion event `sendPaymentResponse` publishes. */
  function PaymentResponse(ev: YankiPaymentRequest, success: bool, message: PaymentMessage, now: Time): Event {
    YankiPaymentCompleted(ev.paymentId, ev.requestId, success, message, now)
  }

  /** `sendPaymentResponse`: one completion event appended to the outbound log. */
  function Respond(e: Env, ev: YankiPaymentRequest, success: bool, message: PaymentMessage, now: Time): Env {
    e.(events := e.events + [PaymentResponse(ev, success, message, now)])
  }

  /** The document `createTransactionRecord` appends, under a fresh id. */
  function PaymentRecord(id: Id, from: Wallet, to: Wallet, ev: YankiPaymentRequest, now: Time): YankiTransaction {
    TransferRecord(id, ev.paymentId, ev.amount, from, to, to.phoneNumber, ev.description, now)
  }

  /**
   * `processTransfer`: debit the source copy, credit the destination copy, save
   * them in that order (so for one phone the credited copy is what remains),
   * record the transfer and answer with success.
   */
  function Transfer(e: Env, from: Wallet, to: Wallet, ev: YankiPaymentRequest, now: Time): Env {
    var debited := BalanceUpdated(from, ev.amount, false, now);
    var credited := BalanceUpdated(to, ev.amount, true, now);
    Respond(e.(store := e.store[debited.phoneNumber := debited][credited.phoneNumber := credited],
               transactions := e.transactions + [PaymentRecord(e.nextId, debited, credited, ev, now)],
               nextId := e.nextId + 1),
            ev, true, Processed, now)
  }

  /** The checks once both wallets are in hand: the source must cover the amount. */
  function Checked(e: Env, from: Wallet, to: Wallet, ev: YankiPaymentRequest, now: Time): Env {
    if !SufficientBalance(from, ev.amount) then
      Respond(e, ev, false, BalanceInsufficient(from.balance, ev.amount), now)
    else Transfer(e, from, to, ev, now)
  }

  /**
   * `processYankiPayment` as evidently intended: a missing wallet (the source
   * reported first) is answered with a failure naming its phone.
   */
  function YankiPayment(e: Env, ev: YankiPaymentRequest, now: Time): Env {
    if ev.fromPhoneNumber !in e.store then Respond(e, ev, false, MissingWallet(ev.fromPhoneNumber), now)
    else if ev.toPhoneNumber !in e.store then Respond(e, ev, false, MissingWallet(ev.toPhoneNumber), now)
    else Checked(e, e.store[ev.fromPhoneNumber], e.store[ev.toPhoneNumber], ev, now)
  }

  /**
   * `processYankiPayment` as written: the two lookups are zipped, and a zip with
   * an empty side completes empty, so the null check is never reached and a
   * missing wallet is answered with nothing at all.
   */
  function YankiPaymentAsWritten(e: Env, ev: YankiPaymentRequest, now: Time): Env {
    if ev.fromPhoneNumber !in e.store || ev.toPhoneNumber !in e.store then e
    else Checked(e, e.store[ev.fromPhoneNumber], e.store[ev.toPhoneNumber], ev, now)
  }

  /** Whether the request can be carried out: both wallets exist and the source covers the amount. */
  predicate Payable(e: Env, ev: YankiPaymentRequest) {
    ev.fromPhoneNumber in e.store && ev.toPhoneNumber in e.store &&
    SufficientBalance(e.store[ev.fromPhoneNumber], ev.amount)
  }

  /**
   * Every request is answered by exactly one completion event, appended after
   * everything already published, echoing the payment and request ids; it
   * reports success exactly when the request is payable.
   */
  lemma PaymentRespondsOnce(e: Env, ev: YankiPaymentRequest, now: Time)
    ensures var e1 := YankiPayment(e, ev, now);
            && |e1.events| == |e.events| + 1
            && e1.events[..|e.events|] == e.events
            && var r := e1.events[|e.events|];
               && r.YankiPaymentCompleted?
               && r.paymentId == ev.paymentId && r.requestId == ev.requestId
               && (r.success <==> Payable(e, ev))
  {
    var e1 := YankiPayment(e, ev, now);
    assert e1.events == e.events + [e1.events[|e.events|]];
  }

  /**
   * A request that is not payable changes nothing but the outbound log: no
   * wallet is saved and nothing is recorded.  The message names the missing
   * wallet (the source first), or reports the available and required amounts.
   */
  lemma RefusedPaymentChangesNothing(e: Env, ev: YankiPaymentRequest, now: Time)
    requires !Payable(e, ev)
    ensures var e1 := YankiPayment(e, ev, now);
            && e1.store == e.store && e1.cache == e.cache
            && e1.transactions == e.transactions && e1.nextId == e.nextId
            && e1.events == e.events + [PaymentResponse(ev, false,
                 if ev.fromPhoneNumber !in e.store then MissingWallet(ev.fromPhoneNumber)
                 else if ev.toPhoneNumber !in e.store then MissingWallet(ev.toPhoneNumber)
                 else BalanceInsufficient(e.store[ev.fromPhoneNumber].balance, ev.amount), now)]
  {
  }

  /**
   * A payable request between two distinct wallets debits the source and
   * credits the destination by exactly the amount, leaves the source
   * non-negative, leaves every other wallet as it was, and keeps the total of
   * all balances.
   */
  lemma TransferMovesAmount(e: Env, ev: YankiPaymentRequest, now: Time)
    requires StoreInvariant(e.store, e.cache, e.nextId)
    requires Payable(e, ev) && ev.fromPhoneNumber != ev.toPhoneNumber
    ensures var e1 := YankiPayment(e, ev, now);
            var from, to := ev.fromPhoneNumber, ev.toPhoneNumber;
            && e1.store.Keys == e.store.Keys
            && e1.store[from] == BalanceUpdated(e.store[from], ev.amount, false, now)
            && e1.store[to] == BalanceUpdated(e.store[to], ev.amount, true, now)
            && e1.store[from].balance == e.store[from].balance - ev.amount
            && e1.store[to].balance == e.store[to].balance + ev.amount
            && e1.store[from].balance >= 0
            && (forall p :: p in e.store && p != from && p != to ==> e1.store[p] == e.store[p])
            && TotalBalance(e1.store) == TotalBalance(e.store)
  {
    var from, to := ev.fromPhoneNumber, ev.toPhoneNumber;
    InvariantAt(e.store, e.cache, e.nextId, from);
    InvariantAt(e.store, e.cache, e.nextId, to);
    DebitAfterSufficiencyCheck(e.store[from], ev.amount, now);
    TransferKeepsTotal(e.store, from, to, ev.amount, now);
  }

  /**
   * A payable request from a wallet to itself leaves the wallet credited: both
   * copies are read before either is saved, and the credited copy is saved last.
   */
  lemma SelfPaymentCredits(e: Env, ev: YankiPaymentRequest, now: Time)
    requires StoreInvariant(e.store, e.cache, e.nextId)
    requires Payable(e, ev) && ev.fromPhoneNumber == ev.toPhoneNumber
    ensures var e1 := YankiPayment(e, ev, now);
            && e1.store == e.store[ev.fromPhoneNumber :=
                 BalanceUpdated(e.store[ev.fromPhoneNumber], ev.amount, true, now)]
            && e1.store[ev.fromPhoneNumber].balance == e.store[ev.fromPhoneNumber].balance + ev.amount
  {
    InvariantAt(e.store, e.cache, e.nextId, ev.fromPhoneNumber);
  }

  /**
   * A payable request appends exactly one COMPLETED TRANSFER record, under a
   * fresh id, whose transaction id is the request's payment id and which carries
   * the amount, the description, both wallet ids and both phones.
   */
  lemma PaymentRecordsOnce(e: Env, ev: YankiPaymentRequest, now: Time)
    requires StoreInvariant(e.store, e.cache, e.nextId)
    requires Payable(e, ev)
    ensures var e1 := YankiPayment(e, ev, now);
            && |e1.transactions| == |e.transactions| + 1
            && e1.transactions[..|e.transactions|] == e.transactions
            && var t := e1.transactions[|e.transactions|];
               && t.transactionType == TRANSFER && t.status == COMPLETED
               && t.id == e.nextId && e1.nextId == e.nextId + 1
               && t.transactionId == ev.paymentId
               && t.amount == ev.amount && t.description == ev.description
               && t.fromWalletId == e.store[ev.fromPhoneNumber].id
               && t.toWalletId == e.store[ev.toPhoneNumber].id
               && t.fromPhoneNumber == ev.fromPhoneNumber
               && t.toPhoneNumber == ev.toPhoneNumber
  {
    InvariantAt(e.store, e.cache, e.nextId, ev.fromPhoneNumber);
    InvariantAt(e.store, e.cache, e.nextId, ev.toPhoneNumber);
    var e1 := YankiPayment(e, ev, now);
    assert e1.transactions == e.transactions + [e1.transactions[|e.transactions|]];
  }

  /** Every request keeps the store invariant (the cache is left alone and may turn stale). */
  lemma PaymentKeepsInvariant(e: Env, ev: YankiPaymentRequest, now: Time)
    requires StoreInvariant(e.store, e.cache, e.nextId)
    ensures var e1 := YankiPayment(e, ev, now); StoreInvariant(e1.store, e1.cache, e1.nextId)
  {
    if Payable(e, ev) {
      var from, to := e.store[ev.fromPhoneNumber], e.store[ev.toPhoneNumber];
      InvariantAt(e.store, e.cache, e.nextId, ev.fromPhoneNumber);
      InvariantAt(e.store, e.cache, e.nextId, ev.toPhoneNumber);
      var debited := BalanceUpdated(from, ev.amount, false, now);
      var credited := BalanceUpdated(to, ev.amount, true, now);
      SaveStoredKeepsInvariant(e.store, e.cache, e.nextId, debited);
      SaveStoredKeepsInvariant(e.store[debited.phoneNumber := debited], e.cache, e.nextId, credited);
      MoreIdsKeepInvariant(e.store[debited.phoneNumber := debited][credited.phoneNumber := credited],
                           e.cache, e.nextId, e.nextId + 1);
    }
  }

  /**
   * As written, a request naming a wallet the store does not hold is answered
   * with nothing: no completion event, and no other change.
   */
  lemma ZipLosesMissingWallet(e: Env, ev: YankiPaymentRequest, now: Time)
    requires ev.fromPhoneNumber !in e.store || ev.toPhoneNumber !in e.store
    ensures YankiPaymentAsWritten(e, ev, now) == e
    ensures |YankiPaymentAsWritten(e, ev, now).events| == |e.events|
    ensures |YankiPayment(e, ev, now).events| == |e.events| + 1
  {
  }

  /** The two versions agree whenever both wallets exist. */
  lemma AsWrittenAgreesWhenBothExist(e: Env, ev: YankiPaymentRequest, now: Time)
    requires ev.fromPhoneNumber in e.store && ev.toPhoneNumber in e.store
    ensures YankiPaymentAsWritten(e, ev, now) == YankiPayment(e, ev, now)
  {
  }

  class YankiPaymentService {
    /** The wallet store, the transaction store and the producer. */
    const env: Backend

    ghost predicate Valid()
      reads env
    {
      env.Valid()
    }

    constructor (env: Backend)
      requires env.Valid()
      ensures Valid() && this.env == env
    {
      this.env := env;
    }

    method ProcessYankiPayment(ev: YankiPaymentRequest, now: Time)
      requires Valid()
      modifies env
      ensures Valid()
      ensures env.State() == YankiPayment(old(env.State()), ev, now)
    {
      PaymentKeepsInvariant(env.State(), ev, now);
      var fromFound := env.FindStored(ev.fromPhoneNumber);
      var toFound := env.FindStored(ev.toPhoneNumber);
      if fromFound.None? || toFound.None? {
        var missing := if fromFound.None? then ev.fromPhoneNumber else ev.toPhoneNumber;
        SendPaymentResponse(ev, false, MissingWallet(missing), now);
        return;
      }
      var fromWallet := new YankiWallet.FromSnapshot(fromFound.value);
      var toWallet := new YankiWallet.FromSnapshot(toFound.value);
      if !fromWallet.HasSufficientBalance(ev.amount) {
        SendPaymentResponse(ev, false, BalanceInsufficient(fromWallet.balance, ev.amount), now);
        return;
      }
      ProcessTransfer(fromWallet, toWallet, ev, now);
    }

    method ProcessTransfer(fromWallet: YankiWallet, toWallet: YankiWallet, ev: YankiPaymentRequest, now: Time)
      requires fromWallet != toWallet
      modifies fromWallet, toWallet, env
      ensures env.State() == Transfer(old(env.State()), old(fromWallet.Snapshot()), old(toWallet.Snapshot()), ev, now)
    {
      fromWallet.UpdateBalance(ev.amount, false, now);
      toWallet.UpdateBalance(ev.amount, true, now);
      env.SaveWallet(fromWallet.Snapshot());
      env.SaveWallet(toWallet.Snapshot());
      CreateTransactionRecord(fromWallet.Snapshot(), toWallet.Snapshot(), ev, now);
      SendPaymentResponse(ev, true, Processed, now);
    }

    method CreateTransactionRecord(from: Wallet, to: Wallet, ev: YankiPaymentRequest, now: Time)
      modifies env`transactions, env`nextId
      ensures env.transactions == old(env.transactions) + [PaymentRecord(old(env.nextId), from, to, ev, now)]
      ensures env.nextId == old(env.nextId) + 1
    {
      var id := env.FreshId();
      env.SaveTransaction(PaymentRecord(id, from, to, ev, now));
    }

    method SendPaymentResponse(ev: YankiPaymentRequest, success: bool, message: PaymentMessage, now: Time)
      modifies env`events
      ensures env.events == old(env.events) + [PaymentResponse(ev, success, message, now)]
    {
      env.Publish(PaymentResponse(ev, success, message, now));
    }
  }
}
