/**
 * What each operation of the wallet service does to the whole state, as a
 * function of the state before it: registration, the cache-aside lookup, card
 * association, the two-regime payment, the suspension of a payment from a
 * card-linked wallet and its deferred completion.  The methods of
 * `WalletService.YankiWalletService` are proved to perform exactly these
 * functions; the lemmas here state what the functions guarantee.
 */
module WalletOperations {
  import opened Wrappers
  import opened YankiWalletModel
  import opened Records
  import opened Infrastructure
  import opened Ledger

  /** The failures the service signals to its callers. */
  datatype ServiceError =
    | DuplicatePhoneNumber
    | DuplicateDocumentNumber
    | WalletNotFound(phoneNumber: Phone)
    | InsufficientBalance

  /** A wallet as submitted for registration, before the service completes it. */
  datatype WalletCandidate = WalletCandidate(
    documentNumber: string,
    documentType: DocumentType,
    phoneNumber: Phone,
    imei: string,
    email: string,
    balance: Option<int>,
    associatedCreditId: Option<string>)

  /** The wallet service's state: the backend it writes to and its pending table (inquiry id -> suspended transfer). */
  datatype Service = Service(env: Env, pending: map<Id, PendingTransaction>)

  /** The result an operation signals, and the state it leaves. */
  datatype Outcome<T> = Outcome(result: Result<T, ServiceError>, after: Service)

  /** A suspended payment: the provisional transaction id handed to the caller, and the state. */
  datatype Suspension = Suspension(transactionId: Id, after: Service)

  /**
   * Every pending inquiry id and provisional transaction id was drawn from the id
   * counter, and every suspended transfer comes from a card-linked wallet.
   */
  ghost predicate PendingInvariant(pending: map<Id, PendingTransaction>, nextId: nat) {
    forall k :: k in pending ==>
      k < nextId && pending[k].transactionId < nextId && HasCard(pending[k].fromWallet)
  }

  ghost predicate Invariant(s: Service) {
    StoreInvariant(s.env.store, s.env.cache, s.env.nextId) && PendingInvariant(s.pending, s.env.nextId)
  }

  /** The wallet `createWallet` saves: zero balance when none was given, ACTIVE, stamped `now`. */
  function Registered(c: WalletCandidate, id: Id, now: Time): (w: Wallet)
    ensures w.status == ACTIVE && w.createdAt == now && w.updatedAt == now
    ensures w.balance == (if c.balance.Some? then c.balance.value else 0)
  {
    Wallet(id, c.documentNumber, c.documentType, c.phoneNumber, c.imei, c.email,
           c.balance.GetOr(0), c.associatedCreditId, ACTIVE, now, now)
  }

  /** `createWallet`: reject a known phone, then a known document; otherwise save, announce and cache. */
  function Register(s: Service, c: WalletCandidate, now: Time): Outcome<Wallet> {
    if c.phoneNumber in s.env.store then Outcome(Failure(DuplicatePhoneNumber), s)
    else if DocumentTaken(s.env.store, c.documentNumber) then Outcome(Failure(DuplicateDocumentNumber), s)
    else
      var w := Registered(c, s.env.nextId, now);
      var e := s.env;
      Outcome(Success(w), s.(env := e.(
        store := e.store[w.phoneNumber := w],
        cache := e.cache[w.phoneNumber := w],
        events := e.events + [WalletCreated(w.id, w.phoneNumber, w.documentNumber, w.documentType,
                                            w.email, w.createdAt)],
        nextId := e.nextId + 1)))
  }

  /** `findByPhoneNumber`: the cached snapshot; else the stored wallet, which is then cached. */
  function Find(s: Service, phone: Phone): Outcome<Wallet> {
    if phone in s.env.cache then Outcome(Success(s.env.cache[phone]), s)
    else if phone in s.env.store then
      var w := s.env.store[phone];
      Outcome(Success(w), s.(env := s.env.(cache := s.env.cache[phone := w])))
    else Outcome(Failure(WalletNotFound(phone)), s)
  }

  /** `associateDebitCard`: link the card on the looked-up snapshot, save it, announce it, re-cache it. */
  function LinkCard(s: Service, phone: Phone, creditId: Option<string>, now: Time): Outcome<Wallet> {
    var found := Find(s, phone);
    if found.result.Failure? then found
    else
      var w := WithCard(found.result.value, creditId, now);
      var e := found.after.env;
      Outcome(Success(w), found.after.(env := e.(
        store := e.store[w.phoneNumber := w],
        events := e.events + [CardAssociated(w.id, w.phoneNumber, creditId, w.updatedAt)],
        cache := e.cache[phone := w])))
  }

  /** `validateCreditBalanceViaKafka`: park the transfer under a fresh inquiry id and ask the credit system. */
  function Suspend(s: Service, from: Wallet, toPhone: Phone, amount: int, description: string,
                   now: Time): Suspension
  {
    var inquiryId := s.env.nextId;
    var transactionId := inquiryId + 1;
    Suspension(transactionId, Service(
      s.env.(events := s.env.events + [CreditBalanceInquiry(inquiryId, from.associatedCreditId, amount, SOURCE,
                                                            transactionId, from.phoneNumber, toPhone, description)],
             nextId := inquiryId + 2),
      s.pending[inquiryId := PendingTransaction(from, toPhone, amount, description, now, transactionId)]))
  }

  /** The payment request that tops up a card-linked destination of an immediate payment. */
  function DestinationPayment(from: Wallet, to: Wallet, amount: int, description: string, id: Id,
                              now: Time): Event
  {
    TransactionPaymentRequest(id, to.associatedCreditId, amount,
                              "Yanki Transfer from " + from.phoneNumber + ": " + description,
                              to.documentNumber, now, SOURCE)
  }

  /**
   * The store, records and notifications after an immediate payment found its
   * destination: the source is debited and saved; an unlinked destination is
   * credited and saved and the transfer recorded; a card-linked destination is
   * paid through the credit system instead.  Two ids are drawn.
   */
  function ImmediateEffects(e: Env, from: Wallet, to: Wallet, toPhone: Phone, amount: int,
                            description: string, now: Time): Env
  {
    var n := e.nextId;
    var debited := BalanceUpdated(from, amount, false, now);
    if !HasCard(to) then
      var credited := BalanceUpdated(to, amount, true, now);
      e.(store := e.store[debited.phoneNumber := debited][credited.phoneNumber := credited],
         transactions := e.transactions +
           [TransferRecord(n + 1, n, amount, debited, credited, toPhone, description, now)],
         nextId := n + 2)
    else
      e.(store := e.store[debited.phoneNumber := debited],
         events := e.events + [DestinationPayment(from, to, amount, description, n + 1, now)],
         nextId := n + 2)
  }

  /** `proceedWithYankiPayment`: look the destination up, then settle at once. */
  function PayNow(s: Service, from: Wallet, toPhone: Phone, amount: int, description: string,
                  now: Time): Outcome<Transaction>
  {
    var found := Find(s, toPhone);
    if found.result.Failure? then Outcome(Failure(found.result.error), found.after)
    else
      var to := found.result.value;
      var e := found.after.env;
      Outcome(Success(Transaction(e.nextId, amount, from.id, Some(to.id), from.phoneNumber, toPhone,
                                  description, COMPLETED, now)),
              found.after.(env := ImmediateEffects(e, from, to, toPhone, amount, description, now)))
  }

  /** Forget the cached snapshots of both parties. */
  function Evicted(s: Service, a: Phone, b: Phone): Service {
    s.(env := s.env.(cache := s.env.cache - {a} - {b}))
  }

  /**
   * The lookup and dispatch of `processPayment`: a card-linked source suspends
   * the payment; an unlinked one must cover the amount and settles at once.
   */
  function Initiate(s: Service, fromPhone: Phone, toPhone: Phone, amount: int, description: string,
                    now: Time): Outcome<Transaction>
  {
    var found := Find(s, fromPhone);
    if found.result.Failure? then Outcome(Failure(found.result.error), found.after)
    else
      var from := found.result.value;
      if HasCard(from) then
        var suspended := Suspend(found.after, from, toPhone, amount, description, now);
        Outcome(Success(Transaction(suspended.transactionId, amount, from.id, None, from.phoneNumber,
                                    toPhone, description, PENDING, now)),
                suspended.after)
      else if !SufficientBalance(from, amount) then Outcome(Failure(InsufficientBalance), found.after)
      else PayNow(found.after, from, toPhone, amount, description, now)
  }

  /** `processPayment`: after a COMPLETED payment both parties leave the cache. */
  function Pay(s: Service, fromPhone: Phone, toPhone: Phone, amount: int, description: string,
               now: Time): Outcome<Transaction>
  {
    var o := Initiate(s, fromPhone, toPhone, amount, description, now);
    if o.result.Success? && o.result.value.status == COMPLETED
    then Outcome(o.result, Evicted(o.after, fromPhone, toPhone))
    else o
  }

  /**
   * `sendKafkaEvents`: the notifications to the credit system after a deferred
   * payment, ids drawn from `firstId` on.  A card-linked sender yields a
   * consumption request (carrying the RECEIVER's credit id) and, if the
   * receiver is card-linked too, a payment request (carrying the SENDER's
   * credit id); a card-linked receiver alone yields one payment request; two
   * unlinked wallets yield nothing.
   */
  function CrossNotifications(from: Wallet, to: Wallet, amount: int, description: string,
                              firstId: Id, now: Time): (es: seq<Event>)
    ensures |es| == (if HasCard(from) then 1 else 0) + (if HasCard(to) then 1 else 0)
    ensures HasCard(from) <==> |es| > 0 && es[0].TransactionConsumptionRequest?
    ensures HasCard(to) <==> |es| > 0 && es[|es| - 1].TransactionPaymentRequest?
    ensures forall e :: e in es ==>
              (e.TransactionConsumptionRequest? || e.TransactionPaymentRequest?) &&
              e.amount == amount && e.source == SOURCE
    ensures HasCard(from) ==> es[0].consumptionId == firstId && es[0].creditId == to.associatedCreditId
    ensures HasCard(to) ==> es[|es| - 1].paymentId == firstId + |es| - 1
                            && es[|es| - 1].creditId == from.associatedCreditId
                            && es[|es| - 1].customerId == from.documentNumber
  {
    if HasCard(from) then
      var consumption :=
        TransactionConsumptionRequest(firstId, to.associatedCreditId, amount,
                                      "Yanki Transfer to " + from.phoneNumber + ": " + description,
                                      TRANSFER_MERCHANT, now, SOURCE);
      if HasCard(to) then [consumption, CrossPayment(from, to, amount, description, firstId + 1, now)]
      else [consumption]
    else if HasCard(to) then [CrossPayment(from, to, amount, description, firstId, now)]
    else []
  }

  /** The payment request of `sendKafkaEvents`, with the sender's credit id and document. */
  function CrossPayment(from: Wallet, to: Wallet, amount: int, description: string, id: Id,
                        now: Time): Event
  {
    TransactionPaymentRequest(id, from.associatedCreditId, amount,
                              "Yanki Transfer from " + to.phoneNumber + ": " + description,
                              from.documentNumber, now, SOURCE)
  }

  /**
   * The store, records and notifications after an approved payment found its
   * destination: an unlinked source is debited and saved, an unlinked
   * destination is credited and saved and the transfer recorded, and the
   * credit system is notified as `sendKafkaEvents` selects.
   */
  function DeferredEffects(e: Env, from: Wallet, to: Wallet, toPhone: Phone, amount: int,
                           description: string, now: Time): Env
  {
    var n := e.nextId;
    var fromAfter := if HasCard(from) then from else BalanceUpdated(from, amount, false, now);
    var toAfter := if HasCard(to) then to else BalanceUpdated(to, amount, true, now);
    var store1 := if HasCard(from) then e.store else e.store[fromAfter.phoneNumber := fromAfter];
    if !HasCard(to) then
      var notes := CrossNotifications(fromAfter, toAfter, amount, description, n + 2, now);
      e.(store := store1[toAfter.phoneNumber := toAfter],
         transactions := e.transactions +
           [TransferRecord(n + 1, n, amount, fromAfter, toAfter, toPhone, description, now)],
         events := e.events + notes,
         nextId := n + 2 + |notes|)
    else
      var notes := CrossNotifications(fromAfter, toAfter, amount, description, n + 1, now);
      e.(store := store1, events := e.events + notes, nextId := n + 1 + |notes|)
  }

  /** `proceedWithPayment`: look the destination up, then settle the approved payment. */
  function Settle(s: Service, from: Wallet, toPhone: Phone, amount: int, description: string,
                  now: Time): Outcome<Transaction>
  {
    var found := Find(s, toPhone);
    if found.result.Failure? then Outcome(Failure(found.result.error), found.after)
    else
      var to := found.result.value;
      var e := found.after.env;
      Outcome(Success(Transaction(e.nextId, amount, from.id, Some(to.id), from.phoneNumber, toPhone,
                                  description, COMPLETED, now)),
              found.after.(env := DeferredEffects(e, from, to, toPhone, amount, description, now)))
  }

  /**
   * `processCreditBalanceResponse`: take the pending transfer out of the table;
   * settle it only when the credit system approved it.
   */
  function Resolve(s: Service, response: CreditBalanceResponse, now: Time): Service {
    var id := response.inquiryId;
    if id !in s.pending then s
    else
      var p := s.pending[id];
      var taken := s.(pending := s.pending - {id});
      if response.isValid then Settle(taken, p.fromWallet, p.toPhoneNumber, p.amount, p.description, now).after
      else taken
  }

  // ---------------------------------------------------------------------------
  // The lookup

  /**
   * A lookup keeps the invariant, succeeds exactly for stored phones and
   * changes nothing but the cache.  A cache hit returns the cached snapshot
   * as it is (possibly with a stale balance or card) and changes nothing; a
   * miss on a stored phone returns exactly the stored wallet and caches it.
   */
  lemma FindKeepsInvariant(s: Service, phone: Phone)
    requires Invariant(s)
    ensures var o := Find(s, phone);
            && Invariant(o.after)
            && o.after.pending == s.pending
            && o.after.env == s.env.(cache := o.after.env.cache)
            && (o.result.Success? <==> phone in s.env.store)
            && (o.result.Failure? ==> o.result == Failure(WalletNotFound(phone)) && o.after == s)
            && (o.result.Success? ==>
                  && o.result.value.phoneNumber == phone
                  && SameProfile(o.result.value, s.env.store[phone])
                  && o.after.env.cache[phone] == o.result.value)
            && (phone in s.env.cache ==> o == Outcome(Success(s.env.cache[phone]), s))
            && (phone !in s.env.cache && phone in s.env.store ==>
                  && o.result == Success(s.env.store[phone])
                  && o.after.env.cache == s.env.cache[phone := s.env.store[phone]])
  {
    var e := s.env;
    InvariantAt(e.store, e.cache, e.nextId, phone);
    if phone !in e.cache && phone in e.store {
      CacheKeepsInvariant(e.store, e.cache, e.nextId, phone, e.store[phone]);
    }
  }

  /** A second lookup of the same phone is a cache hit: same snapshot, no further change. */
  lemma FindIdempotent(s: Service, phone: Phone)
    ensures var o := Find(s, phone);
            Find(o.after, phone) == o
  {
  }

  /** A lookup does not disturb what a lookup of another phone sees. */
  lemma FindIndependent(s: Service, a: Phone, b: Phone)
    requires a != b
    ensures Find(Find(s, a).after, b).result == Find(s, b).result
  {
  }

  // ---------------------------------------------------------------------------
  // Registration

  /**
   * A known phone (checked first) or a known document fails and changes nothing;
   * otherwise registration succeeds: the wallet is stored and cached ACTIVE with the given balance or
   * zero, under an id no stored wallet carries, and exactly one WalletCreated
   * event is emitted.
   */
  lemma RegisterOutcome(s: Service, c: WalletCandidate, now: Time)
    requires Invariant(s)
    ensures var o := Register(s, c, now);
            && Invariant(o.after)
            && (c.phoneNumber in s.env.store ==> o == Outcome(Failure(DuplicatePhoneNumber), s))
            && (c.phoneNumber !in s.env.store && DocumentTaken(s.env.store, c.documentNumber) ==>
                  o == Outcome(Failure(DuplicateDocumentNumber), s))
            && (c.phoneNumber !in s.env.store && !DocumentTaken(s.env.store, c.documentNumber) ==>
                  o.result.Success?)
            && (o.result.Success? ==>
                  var w := o.result.value;
                  && w == Registered(c, s.env.nextId, now)
                  && w.status == ACTIVE
                  && w.balance == c.balance.GetOr(0)
                  && (forall p :: p in s.env.store ==> s.env.store[p].id != w.id)
                  && o.after.env.store == s.env.store[c.phoneNumber := w]
                  && o.after.env.cache == s.env.cache[c.phoneNumber := w]
                  && o.after.env.events == s.env.events +
                       [WalletCreated(w.id, c.phoneNumber, c.documentNumber, c.documentType, c.email, now)]
                  && o.after.env.transactions == s.env.transactions
                  && o.after.pending == s.pending)
  {
    var e := s.env;
    if c.phoneNumber !in e.store && !DocumentTaken(e.store, c.documentNumber) {
      var w := Registered(c, e.nextId, now);
      InsertKeepsInvariant(e.store, e.cache, e.nextId, w);
      forall p | p in e.store ensures e.store[p].id != w.id {
        InvariantAt(e.store, e.cache, e.nextId, p);
      }
    }
  }

  /** After a registration, the same phone, or the same document under another phone, is refused. */
  lemma RegisterTwiceRefused(s: Service, c: WalletCandidate, c2: WalletCandidate, now: Time, later: Time)
    requires Register(s, c, now).result.Success?
    ensures var s1 := Register(s, c, now).after;
            && (c2.phoneNumber == c.phoneNumber ==> Register(s1, c2, later).result == Failure(DuplicatePhoneNumber))
            && (c2.documentNumber == c.documentNumber ==>
                  Register(s1, c2, later).result.Failure? && Register(s1, c2, later).after == s1)
            && (c2.phoneNumber !in s1.env.store && c2.documentNumber == c.documentNumber ==>
                  Register(s1, c2, later).result == Failure(DuplicateDocumentNumber))
  {
    var s1 := Register(s, c, now).after;
    assert c.phoneNumber in s1.env.store && s1.env.store[c.phoneNumber].documentNumber == c.documentNumber;
  }

  // ---------------------------------------------------------------------------
  // Card association

  /**
   * An unknown phone fails with WalletNotFound and changes nothing.  Otherwise
   * the wallet saved under the phone is the looked-up snapshot with the new
   * credit id, it is re-cached, exactly one CardAssociated event carries the
   * same credit id, and nothing else changes.
   */
  lemma LinkCardOutcome(s: Service, phone: Phone, creditId: Option<string>, now: Time)
    requires Invariant(s)
    ensures var o := LinkCard(s, phone, creditId, now);
            && Invariant(o.after)
            && (phone !in s.env.store ==> o == Outcome(Failure(WalletNotFound(phone)), s))
            && (phone in s.env.store ==>
                  var seen := Find(s, phone).result.value;
                  && o.result.Success?
                  && o.result.value == WithCard(seen, creditId, now)
                  && o.result.value.associatedCreditId == creditId
                  && SameProfile(o.result.value, s.env.store[phone])
                  && o.after.env.store == s.env.store[phone := o.result.value]
                  && o.after.env.cache == s.env.cache[phone := o.result.value]
                  && o.after.env.events == s.env.events +
                       [CardAssociated(o.result.value.id, phone, creditId, now)]
                  && o.after.env.transactions == s.env.transactions
                  && o.after.env.nextId == s.env.nextId
                  && o.after.pending == s.pending)
  {
    LinkCardKeepsInvariant(s, phone, creditId, now);
    FindKeepsInvariant(s, phone);
  }

  lemma LinkCardKeepsInvariant(s: Service, phone: Phone, creditId: Option<string>, now: Time)
    requires Invariant(s)
    ensures Invariant(LinkCard(s, phone, creditId, now).after)
  {
    FindKeepsInvariant(s, phone);
    var found := Find(s, phone);
    if found.result.Success? {
      var w := WithCard(found.result.value, creditId, now);
      var e := found.after.env;
      SaveStoredKeepsInvariant(e.store, e.cache, e.nextId, w);
      CacheKeepsInvariant(e.store[phone := w], e.cache, e.nextId, phone, w);
    }
  }

  // ---------------------------------------------------------------------------
  // Payment

  /**
   * From a card-linked source: no wallet changes and nothing is recorded;
   * exactly one pending entry appears, under a fresh inquiry id, holding the
   * looked-up source, the requested destination, amount and description; one
   * inquiry carries that same inquiry id (so the credit system's answer finds
   * the entry), the source's credit id, the amount and the result's id; the
   * result is PENDING, has no destination wallet, and its id is the pending
   * entry's transaction id.
   */
  lemma PayFromCardSuspends(s: Service, fromPhone: Phone, toPhone: Phone, amount: int,
                            description: string, now: Time)
    requires Invariant(s)
    requires fromPhone in s.env.store && HasCard(Find(s, fromPhone).result.value)
    ensures var from := Find(s, fromPhone).result.value;
            var o := Pay(s, fromPhone, toPhone, amount, description, now);
            var inquiryId := s.env.nextId;
            && Invariant(o.after)
            && o.after.env.store == s.env.store
            && o.after.env.transactions == s.env.transactions
            && inquiryId !in s.pending
            && o.after.pending == s.pending[inquiryId := o.after.pending[inquiryId]]
            && o.after.pending[inquiryId].fromWallet == from
            && o.after.pending[inquiryId].amount == amount
            && o.after.env.events == s.env.events + [o.after.env.events[|s.env.events|]]
            && o.after.env.events[|s.env.events|].CreditBalanceInquiry?
            && o.after.env.events[|s.env.events|].creditId == from.associatedCreditId
            && o.after.env.events[|s.env.events|].requiredAmount == amount
            && o.result.Success?
            && o.result.value.status == PENDING
            && o.result.value.toWalletId == None
            && o.result.value.id == o.after.pending[inquiryId].transactionId
            && o.after.pending[inquiryId] ==
                 PendingTransaction(from, toPhone, amount, description, now, o.result.value.id)
            && o.after.env.events[|s.env.events|] ==
                 CreditBalanceInquiry(inquiryId, from.associatedCreditId, amount, SOURCE,
                                      o.result.value.id, from.phoneNumber, toPhone, description)
  {
    FindKeepsInvariant(s, fromPhone);
    var f := Find(s, fromPhone).after;
    MoreIdsKeepInvariant(f.env.store, f.env.cache, f.env.nextId, f.env.nextId + 2);
  }

  /** An unlinked source that cannot cover the amount fails before the destination is looked up. */
  lemma PayRejectsInsufficient(s: Service, fromPhone: Phone, toPhone: Phone, amount: int,
                               description: string, now: Time)
    requires Invariant(s)
    requires fromPhone in s.env.store
    requires var from := Find(s, fromPhone).result.value; !HasCard(from) && from.balance < amount
    ensures var o := Pay(s, fromPhone, toPhone, amount, description, now);
            && o == Outcome(Failure(InsufficientBalance), Find(s, fromPhone).after)
            && Invariant(o.after)
            && o.after.env.store == s.env.store
            && o.after.env.transactions == s.env.transactions
            && o.after.env.events == s.env.events
  {
    FindKeepsInvariant(s, fromPhone);
  }

  /** An unlinked, covering source with a missing destination fails before any debit. */
  lemma PayRejectsMissingDestination(s: Service, fromPhone: Phone, toPhone: Phone, amount: int,
                                     description: string, now: Time)
    requires Invariant(s)
    requires fromPhone in s.env.store && toPhone !in s.env.store
    requires var from := Find(s, fromPhone).result.value; !HasCard(from) && from.balance >= amount
    ensures var o := Pay(s, fromPhone, toPhone, amount, description, now);
            && o.result == Failure(WalletNotFound(toPhone))
            && Invariant(o.after)
            && o.after.env.store == s.env.store
            && o.after.env.transactions == s.env.transactions
            && o.after.env.events == s.env.events
            && o.after.pending == s.pending
  {
    FindKeepsInvariant(s, fromPhone);
    FindKeepsInvariant(Find(s, fromPhone).after, toPhone);
  }

  /** The immediate settlement keeps the invariant, given a source with the stored profile. */
  lemma PayNowKeepsInvariant(s: Service, from: Wallet, toPhone: Phone, amount: int,
                             description: string, now: Time)
    requires Invariant(s)
    requires from.phoneNumber in s.env.store && SameProfile(from, s.env.store[from.phoneNumber])
    ensures Invariant(PayNow(s, from, toPhone, amount, description, now).after)
  {
    FindKeepsInvariant(s, toPhone);
    var found := Find(s, toPhone);
    if found.result.Success? {
      var e := found.after.env;
      var to := found.result.value;
      var debited := BalanceUpdated(from, amount, false, now);
      SaveStoredKeepsInvariant(e.store, e.cache, e.nextId, debited);
      var store1 := e.store[debited.phoneNumber := debited];
      if !HasCard(to) {
        SaveStoredKeepsInvariant(store1, e.cache, e.nextId, BalanceUpdated(to, amount, true, now));
        MoreIdsKeepInvariant(store1[to.phoneNumber := BalanceUpdated(to, amount, true, now)], e.cache,
                             e.nextId, e.nextId + 2);
      } else {
        MoreIdsKeepInvariant(store1, e.cache, e.nextId, e.nextId + 2);
      }
    }
  }

  /** A payment keeps the invariant. */
  lemma InitiateKeepsInvariant(s: Service, fromPhone: Phone, toPhone: Phone, amount: int,
                               description: string, now: Time)
    requires Invariant(s)
    ensures Invariant(Initiate(s, fromPhone, toPhone, amount, description, now).after)
  {
    FindKeepsInvariant(s, fromPhone);
    var found := Find(s, fromPhone);
    if found.result.Success? {
      var from := found.result.value;
      if HasCard(from) {
        SuspendKeepsInvariant(found.after, from, toPhone, amount, description, now);
      } else if SufficientBalance(from, amount) {
        PayNowKeepsInvariant(found.after, from, toPhone, amount, description, now);
      }
    }
  }

  lemma PayKeepsInvariant(s: Service, fromPhone: Phone, toPhone: Phone, amount: int,
                          description: string, now: Time)
    requires Invariant(s)
    ensures Invariant(Pay(s, fromPhone, toPhone, amount, description, now).after)
  {
    InitiateKeepsInvariant(s, fromPhone, toPhone, amount, description, now);
    var e := Initiate(s, fromPhone, toPhone, amount, description, now).after.env;
    EvictKeepsInvariant(e.store, e.cache, e.nextId, fromPhone);
    EvictKeepsInvariant(e.store, e.cache - {fromPhone}, e.nextId, toPhone);
  }

  /**
   * An immediate payment between two distinct wallets: the source is debited by
   * exactly the amount (from the snapshot the lookup saw); an unlinked
   * destination is credited and one COMPLETED TRANSFER record is appended; a
   * card-linked destination is left unsaved and one payment request carries its
   * credit id instead; the result is COMPLETED and neither party stays cached.
   */
  lemma PaySettlesAtOnce(s: Service, fromPhone: Phone, toPhone: Phone, amount: int,
                         description: string, now: Time)
    requires Invariant(s)
    requires fromPhone != toPhone && fromPhone in s.env.store && toPhone in s.env.store
    requires var from := Find(s, fromPhone).result.value; !HasCard(from) && from.balance >= amount
    ensures var from := Find(s, fromPhone).result.value;
            var to := Find(s, toPhone).result.value;
            var o := Pay(s, fromPhone, toPhone, amount, description, now);
            var n := s.env.nextId;
            && o.result.Success?
            && o.result.value.status == COMPLETED
            && o.result.value.toWalletId == Some(to.id)
            && o.result.value == Transaction(n, amount, from.id, Some(to.id), fromPhone, toPhone,
                                             description, COMPLETED, now)
            && o.after.env.store[fromPhone] == BalanceUpdated(from, amount, false, now)
            && o.after.env.store[fromPhone].balance == from.balance - amount
            && o.after.env.store.Keys == s.env.store.Keys
            && (forall p :: p in s.env.store && p != fromPhone && p != toPhone ==>
                  o.after.env.store[p] == s.env.store[p])
            && fromPhone !in o.after.env.cache && toPhone !in o.after.env.cache
            && o.after.pending == s.pending
            && (!HasCard(to) ==>
                  && o.after.env.store[toPhone] == BalanceUpdated(to, amount, true, now)
                  && o.after.env.store[toPhone].balance == to.balance + amount
                  && o.after.env.transactions == s.env.transactions +
                       [TransferRecord(n + 1, n, amount, from, to, toPhone, description, now)]
                  && o.after.env.events == s.env.events)
            && (HasCard(to) ==>
                  && o.after.env.store[toPhone] == s.env.store[toPhone]
                  && o.after.env.transactions == s.env.transactions
                  && o.after.env.events == s.env.events +
                       [DestinationPayment(from, to, amount, description, n + 1, now)]
                  && o.after.env.events[|s.env.events|].creditId == to.associatedCreditId)
  {
    FindKeepsInvariant(s, fromPhone);
    var found := Find(s, fromPhone);
    FindIndependent(s, fromPhone, toPhone);
    FindKeepsInvariant(found.after, toPhone);
  }

  /**
   * A payment from an unlinked wallet to itself: both lookups yield the same
   * snapshot, the debited save is overwritten by the credited one, so the
   * wallet ends with its looked-up balance plus the amount, and one transfer
   * record is appended.
   */
  lemma PaySelfCredits(s: Service, phone: Phone, amount: int, description: string, now: Time)
    requires Invariant(s)
    requires phone in s.env.store
    requires var w := Find(s, phone).result.value; !HasCard(w) && w.balance >= amount
    ensures var w := Find(s, phone).result.value;
            var o := Pay(s, phone, phone, amount, description, now);
            var n := s.env.nextId;
            && o.result.Success?
            && o.result.value.status == COMPLETED
            && o.after.env.store == s.env.store[phone := BalanceUpdated(w, amount, true, now)]
            && o.after.env.store[phone].balance == w.balance + amount
            && o.after.env.transactions == s.env.transactions +
                 [TransferRecord(n + 1, n, amount, BalanceUpdated(w, amount, false, now),
                                 BalanceUpdated(w, amount, true, now), phone, description, now)]
            && phone !in o.after.env.cache
  {
    FindKeepsInvariant(s, phone);
    var found := Find(s, phone);
    FindIdempotent(s, phone);
  }

  /**
   * When the cache agrees with the store, an immediate payment between two
   * distinct unlinked wallets moves money without creating or destroying any.
   */
  lemma PayConservesTotal(s: Service, fromPhone: Phone, toPhone: Phone, amount: int,
                          description: string, now: Time)
    requires Invariant(s) && CacheCoherent(s.env.store, s.env.cache)
    requires fromPhone != toPhone && fromPhone in s.env.store && toPhone in s.env.store
    requires !HasCard(s.env.store[fromPhone]) && !HasCard(s.env.store[toPhone])
    requires s.env.store[fromPhone].balance >= amount
    ensures TotalBalance(Pay(s, fromPhone, toPhone, amount, description, now).after.env.store)
            == TotalBalance(s.env.store)
  {
    var m := s.env.store;
    FindKeepsInvariant(s, fromPhone);
    FindIndependent(s, fromPhone, toPhone);
    FindKeepsInvariant(Find(s, fromPhone).after, toPhone);
    InvariantAt(m, s.env.cache, s.env.nextId, fromPhone);
    InvariantAt(m, s.env.cache, s.env.nextId, toPhone);
    TransferKeepsTotal(m, fromPhone, toPhone, amount, now);
  }

  // ---------------------------------------------------------------------------
  // Suspension and deferred completion

  /** Suspending a payment from a card-linked wallet keeps the invariant. */
  lemma SuspendKeepsInvariant(s: Service, from: Wallet, toPhone: Phone, amount: int,
                              description: string, now: Time)
    requires Invariant(s) && HasCard(from)
    ensures s.env.nextId !in s.pending
    ensures Invariant(Suspend(s, from, toPhone, amount, description, now).after)
  {
    MoreIdsKeepInvariant(s.env.store, s.env.cache, s.env.nextId, s.env.nextId + 2);
  }

  /**
   * Completing a payment keeps the invariant, never touches the pending table,
   * and only draws ids forward.
   */
  lemma SettleKeepsInvariant(s: Service, from: Wallet, toPhone: Phone, amount: int,
                             description: string, now: Time)
    requires Invariant(s)
    requires !HasCard(from) ==> from.phoneNumber in s.env.store && SameProfile(from, s.env.store[from.phoneNumber])
    ensures var o := Settle(s, from, toPhone, amount, description, now);
            Invariant(o.after) && o.after.pending == s.pending && o.after.env.nextId >= s.env.nextId
  {
    FindKeepsInvariant(s, toPhone);
    var found := Find(s, toPhone);
    if found.result.Success? {
      var e := found.after.env;
      var to := found.result.value;
      var debited := BalanceUpdated(from, amount, false, now);
      var store1 := if HasCard(from) then e.store else e.store[debited.phoneNumber := debited];
      if !HasCard(from) {
        SaveStoredKeepsInvariant(e.store, e.cache, e.nextId, debited);
      }
      var m := e.nextId + 2 + |CrossNotifications(from, to, amount, description, e.nextId + 2, now)|;
      if !HasCard(to) {
        var credited := BalanceUpdated(to, amount, true, now);
        SaveStoredKeepsInvariant(store1, e.cache, e.nextId, credited);
        MoreIdsKeepInvariant(store1[credited.phoneNumber := credited], e.cache, e.nextId, m);
      } else {
        MoreIdsKeepInvariant(store1, e.cache, e.nextId, m);
      }
    }
  }

  /**
   * A completed payment credits an unlinked destination (from the snapshot the
   * lookup saw) and debits the source only if it is unlinked; it records the
   * transfer, under fresh ids, only when the destination is unlinked; and its
   * notifications are those `sendKafkaEvents` selects.
   */
  lemma SettleOutcome(s: Service, from: Wallet, toPhone: Phone, amount: int, description: string,
                      now: Time)
    requires Invariant(s)
    requires from.phoneNumber != toPhone && toPhone in s.env.store
    ensures var to := Find(s, toPhone).result.value;
            var o := Settle(s, from, toPhone, amount, description, now);
            var n := s.env.nextId;
            && o.result.Success? && o.result.value.status == COMPLETED && o.result.value.id == n
            && o.after.env.store.Keys == s.env.store.Keys + (if HasCard(from) then {} else {from.phoneNumber})
            && (forall p :: p in s.env.store && p != from.phoneNumber && p != toPhone ==>
                  o.after.env.store[p] == s.env.store[p])
            && (HasCard(from) ==> (from.phoneNumber in s.env.store ==>
                                     o.after.env.store[from.phoneNumber] == s.env.store[from.phoneNumber]))
            && (!HasCard(from) ==> o.after.env.store[from.phoneNumber] == BalanceUpdated(from, amount, false, now))
            && (!HasCard(to) ==>
                  && o.after.env.store[toPhone] == BalanceUpdated(to, amount, true, now)
                  && o.after.env.transactions == s.env.transactions +
                       [TransferRecord(n + 1, n, amount, from, to, toPhone, description, now)]
                  && o.after.env.events == s.env.events + CrossNotifications(from, to, amount, description, n + 2, now))
            && (HasCard(to) ==>
                  && o.after.env.store[toPhone] == s.env.store[toPhone]
                  && o.after.env.transactions == s.env.transactions
                  && o.after.env.events == s.env.events + CrossNotifications(from, to, amount, description, n + 1, now))
  {
    FindKeepsInvariant(s, toPhone);
  }

  /**
   * Deferred completion credits the store but not the cache: the lookup of an
   * uncached, unlinked destination caches its snapshot from before the credit,
   * and a non-zero credit leaves that cached snapshot disagreeing with the store.
   */
  lemma SettleLeavesDestinationStale(s: Service, from: Wallet, toPhone: Phone, amount: int,
                                     description: string, now: Time)
    requires Invariant(s)
    requires from.phoneNumber != toPhone && toPhone in s.env.store && toPhone !in s.env.cache
    requires !HasCard(s.env.store[toPhone]) && amount != 0
    ensures var e1 := Settle(s, from, toPhone, amount, description, now).after.env;
            && e1.cache[toPhone] == s.env.store[toPhone]
            && e1.store[toPhone].balance == s.env.store[toPhone].balance + amount
            && e1.cache[toPhone] != e1.store[toPhone]
  {
    FindKeepsInvariant(s, toPhone);
    SettleOutcome(s, from, toPhone, amount, description, now);
  }

  /** An unknown or already-consumed inquiry id changes nothing. */
  lemma ResolveUnknownIsNoOp(s: Service, response: CreditBalanceResponse, now: Time)
    requires response.inquiryId !in s.pending
    ensures Resolve(s, response, now) == s
  {
  }

  /** A rejection only removes the pending entry. */
  lemma ResolveRejectedOnlyRemoves(s: Service, response: CreditBalanceResponse, now: Time)
    requires response.inquiryId in s.pending && !response.isValid
    ensures Resolve(s, response, now) == s.(pending := s.pending - {response.inquiryId})
  {
  }

  /**
   * Deferred completion keeps the invariant and consumes its pending entry, so
   * a duplicate response, whenever it arrives, changes nothing.
   */
  lemma ResolveAtMostOnce(s: Service, response: CreditBalanceResponse, now: Time, later: Time)
    requires Invariant(s)
    ensures var s1 := Resolve(s, response, now);
            && Invariant(s1)
            && response.inquiryId !in s1.pending
            && s1.pending == s.pending - {response.inquiryId}
            && Resolve(s1, response, later) == s1
  {
    var id := response.inquiryId;
    if id in s.pending {
      var p := s.pending[id];
      var taken := s.(pending := s.pending - {id});
      assert Invariant(taken);
      if response.isValid {
        SettleKeepsInvariant(taken, p.fromWallet, p.toPhoneNumber, p.amount, p.description, now);
      }
    }
  }

  /**
   * An approved deferred payment never debits or saves its card-linked source:
   * only the destination's entry of the store can change, and it is credited by
   * the amount when unlinked.  The transfer record, if any, carries ids drawn
   * after the provisional transaction id handed to the caller.
   */
  lemma ResolveApprovedNeverDebitsSource(s: Service, response: CreditBalanceResponse, now: Time)
    requires Invariant(s)
    requires response.inquiryId in s.pending && response.isValid
    ensures var p := s.pending[response.inquiryId];
            var s1 := Resolve(s, response, now);
            && s1.env.store.Keys == s.env.store.Keys
            && (forall q :: q in s.env.store && q != p.toPhoneNumber ==> s1.env.store[q] == s.env.store[q])
            && (p.toPhoneNumber in s.env.store && !HasCard(Find(s, p.toPhoneNumber).result.value) ==>
                  && s1.env.store[p.toPhoneNumber].balance == Find(s, p.toPhoneNumber).result.value.balance + p.amount
                  && |s1.env.transactions| == |s.env.transactions| + 1
                  && s1.env.transactions[|s.env.transactions|].transactionId != p.transactionId
                  && s1.env.transactions[|s.env.transactions|].id != p.transactionId)
  {
    var p := s.pending[response.inquiryId];
    var taken := s.(pending := s.pending - {response.inquiryId});
    assert HasCard(p.fromWallet) && p.transactionId < s.env.nextId;
    var s1 := Resolve(s, response, now);
    assert s1 == Settle(taken, p.fromWallet, p.toPhoneNumber, p.amount, p.description, now).after;
    if p.toPhoneNumber in s.env.store {
      FindKeepsInvariant(taken, p.toPhoneNumber);
      var found := Find(taken, p.toPhoneNumber);
      var to := found.result.value;
      assert found.result == Find(s, p.toPhoneNumber).result;
      if !HasCard(to) {
        assert s1.env.store == s.env.store[p.toPhoneNumber := BalanceUpdated(to, p.amount, true, now)];
        assert s1.env.store.Keys == s.env.store.Keys;
        assert |s1.env.transactions| == |s.env.transactions| + 1;
        assert s1.env.transactions[|s.env.transactions|] ==
               TransferRecord(s.env.nextId + 1, s.env.nextId, p.amount, p.fromWallet,
                              BalanceUpdated(to, p.amount, true, now), p.toPhoneNumber, p.description, now);
      } else {
        assert s1.env.store == s.env.store;
      }
    } else {
      InvariantAt(s.env.store, s.env.cache, s.env.nextId, p.toPhoneNumber);
    }
  }
}
