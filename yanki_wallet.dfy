/**
 * The wallet entity: a phone-addressed ledger account, optionally linked to an
 * external credit-card account.  `Wallet` is a value snapshot (what the store,
 * the cache and a pending transfer hold); `YankiWallet` is the mutable object
 * the services build from a snapshot, change in place and save back.
 */
module YankiWalletModel {
  import opened Wrappers

  type Phone = string
  /** Store-assigned wallet ids, UUIDs and correlation ids, drawn from a fresh-id counter. */
  type Id = nat
  /** An opaque timestamp (`LocalDateTime.now()` / `System.currentTimeMillis()`). */
  type Time = int

  datatype DocumentType = DNI | CEX | PASSPORT

  datatype YankiWalletStatus = ACTIVE | BLOCKED | PENDING_CARD_ASSOCIATION | SUSPENDED

  /** A wallet record; `balance` is in minor currency units. */
  datatype Wallet = Wallet(
    id: Id,
    documentNumber: string,
    documentType: DocumentType,
    phoneNumber: Phone,
    imei: string,
    email: string,
    balance: int,
    associatedCreditId: Option<string>,
    status: YankiWalletStatus,
    createdAt: Time,
    updatedAt: Time)

  /** Card-linked: the credit id is neither null nor empty. */
  predicate HasCard(w: Wallet) {
    w.associatedCreditId.Some? && w.associatedCreditId.value != ""
  }

  /** The fields no operation of the core ever changes once a wallet is stored. */
  predicate SameProfile(a: Wallet, b: Wallet) {
    && a.id == b.id
    && a.documentNumber == b.documentNumber
    && a.documentType == b.documentType
    && a.phoneNumber == b.phoneNumber
    && a.imei == b.imei
    && a.email == b.email
    && a.createdAt == b.createdAt
  }

  /** `BigDecimal.compareTo`: the sign of `a - b`. */
  function CompareTo(a: int, b: int): (c: int)
    ensures -1 <= c <= 1
    ensures c < 0 <==> a < b
    ensures c == 0 <==> a == b
  {
    if a < b then -1 else if a == b then 0 else 1
  }

  /** `hasSufficientBalance`, on a snapshot. */
  predicate SufficientBalance(w: Wallet, amount: int) {
    CompareTo(w.balance, amount) >= 0
  }

  /** The snapshot after `updateBalance(amount, isAddition)` at time `now`. */
  function BalanceUpdated(w: Wallet, amount: int, isAddition: bool, now: Time): (r: Wallet)
    ensures r.(balance := w.balance, updatedAt := w.updatedAt) == w
    ensures r.updatedAt == now
    ensures isAddition ==> r.balance - w.balance == amount
    ensures !isAddition ==> w.balance - r.balance == amount
  {
    if isAddition then w.(balance := w.balance + amount, updatedAt := now)
    else w.(balance := w.balance - amount, updatedAt := now)
  }

  /** The snapshot after `associateCard(creditId)` at time `now`. */
  function WithCard(w: Wallet, creditId: Option<string>, now: Time): (r: Wallet)
    ensures r.associatedCreditId == creditId && r.updatedAt == now
    ensures r.(associatedCreditId := w.associatedCreditId, updatedAt := w.updatedAt) == w
  {
    w.(associatedCreditId := creditId, updatedAt := now)
  }

  /** The snapshot after `activate()` at time `now`. */
  function Activated(w: Wallet, now: Time): (r: Wallet)
    ensures r.status == ACTIVE && r.updatedAt == now
    ensures r.(status := w.status, updatedAt := w.updatedAt) == w
  {
    w.(status := ACTIVE, updatedAt := now)
  }

  /** The sufficiency test is non-strict: a balance equal to the amount suffices. */
  lemma SufficientBalanceIff(w: Wallet, amount: int)
    ensures SufficientBalance(w, amount) <==> w.balance >= amount
  {
  }

  /** A credit followed by a debit of the same amount restores the balance exactly. */
  lemma UpdateBalanceRoundTrip(w: Wallet, amount: int, t1: Time, t2: Time)
    ensures BalanceUpdated(BalanceUpdated(w, amount, true, t1), amount, false, t2) == w.(updatedAt := t2)
    ensures BalanceUpdated(BalanceUpdated(w, amount, false, t1), amount, true, t2) == w.(updatedAt := t2)
  {
  }

  /** A debit that passed the sufficiency test leaves a non-negative balance. */
  lemma DebitAfterSufficiencyCheck(w: Wallet, amount: int, now: Time)
    requires SufficientBalance(w, amount)
    ensures BalanceUpdated(w, amount, false, now).balance >= 0
  {
  }

  /** No entity mutation touches the profile fields. */
  lemma MutationsKeepProfile(w: Wallet, amount: int, isAddition: bool, creditId: Option<string>, now: Time)
    ensures SameProfile(BalanceUpdated(w, amount, isAddition, now), w)
    ensures SameProfile(WithCard(w, creditId, now), w)
    ensures SameProfile(Activated(w, now), w)
  {
  }

  /** The mutable wallet object of the domain model. */
  class YankiWallet {
    var id: Id
    var documentNumber: string
    var documentType: DocumentType
    var phoneNumber: Phone
    var imei: string
    var email: string
    var balance: int
    var associatedCreditId: Option<string>
    var status: YankiWalletStatus
    var createdAt: Time
    var updatedAt: Time

    /** The value a save, a cache write or a pending context copies. */
    function Snapshot(): Wallet
      reads this
    {
      Wallet(id, documentNumber, documentType, phoneNumber, imei, email, balance,
             associatedCreditId, status, createdAt, updatedAt)
    }

    /** A wallet object read back from the store or the cache. */
    constructor FromSnapshot(w: Wallet)
      ensures Snapshot() == w
    {
      id, documentNumber, documentType, phoneNumber := w.id, w.documentNumber, w.documentType, w.phoneNumber;
      imei, email, balance, associatedCreditId := w.imei, w.email, w.balance, w.associatedCreditId;
      status, createdAt, updatedAt := w.status, w.createdAt, w.updatedAt;
    }

    method Activate(now: Time)
      modifies this
      ensures Snapshot() == Activated(old(Snapshot()), now)
    {
      status := ACTIVE;
      updatedAt := now;
    }

    method AssociateCard(creditId: Option<string>, now: Time)
      modifies this
      ensures Snapshot() == WithCard(old(Snapshot()), creditId, now)
    {
      associatedCreditId := creditId;
      updatedAt := now;
    }

    method UpdateBalance(amount: int, isAddition: bool, now: Time)
      modifies this
      ensures Snapshot() == BalanceUpdated(old(Snapshot()), amount, isAddition, now)
    {
      if isAddition {
        balance := balance + amount;
      } else {
        balance := balance - amount;
      }
      updatedAt := now;
    }

    predicate HasSufficientBalance(amount: int)
      reads this
    {
      SufficientBalance(Snapshot(), amount)
    }
  }
}
