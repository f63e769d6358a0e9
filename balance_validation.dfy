/**
 * The balance-validation responder: another system asks whether a wallet
 * covers an amount.  The wallet is looked up through the wallet service's
 * cache-aside read; the decision is a pure function of what the lookup yields,
 * and its only effect is one response appended to the outbound log.
 */
module BalanceValidation {
  import opened Wrappers
  import opened YankiWalletModel
  import opened Records
  import opened Infrastructure
  import opened WalletOperations
  import opened WalletService

  /** What a validation response reports: the flag, the status and the balance it quotes. */
  datatype Verdict = Verdict(sufficient: bool, status: ValidationStatus, currentBalance: int)

  /**
   * `validateWalletBalance`: a wallet that is not ACTIVE is refused without
   * quoting its balance; an ACTIVE one is sufficient exactly when its balance is
   * at least the required amount, and its balance is quoted.
   */
  function WalletVerdict(w: Wallet, required: int): (v: Verdict)
    ensures v.sufficient <==> w.status == ACTIVE && w.balance >= required
    ensures v.sufficient <==> v.status == SUFFICIENT_FUNDS
    ensures w.status != ACTIVE ==> v == Verdict(false, WALLET_INACTIVE, 0)
    ensures w.status == ACTIVE ==> v.currentBalance == w.balance && v.status != WALLET_INACTIVE
    ensures v.status != WALLET_NOT_FOUND && v.status != ERROR
  {
    if w.status != ACTIVE then Verdict(false, WALLET_INACTIVE, 0)
    else
      var sufficientBalance := w.balance >= required;
      Verdict(sufficientBalance, if sufficientBalance then SUFFICIENT_FUNDS else INSUFFICIENT_FUNDS, w.balance)
  }

  /**
   * The verdict on a lookup, as evidently intended: a wallet that is not found
   * is answered WALLET_NOT_FOUND; any other failure would be answered ERROR.
   */
  function LookupVerdict(found: Result<Wallet, ServiceError>, required: int): Verdict {
    match found
    case Success(w) => WalletVerdict(w, required)
    case Failure(WalletNotFound(_)) => Verdict(false, WALLET_NOT_FOUND, 0)
    case Failure(_) => Verdict(false, ERROR, 0)
  }

  /**
   * The verdict on a lookup as written: the empty-lookup branch is never taken,
   * because the lookup signals absence as an error, and every error is answered
   * ERROR.
   */
  function LookupVerdictAsWritten(found: Result<Wallet, ServiceError>, required: int): Verdict {
    match found
    case Success(w) => WalletVerdict(w, required)
    case Failure(_) => Verdict(false, ERROR, 0)
  }

  /** The response `sendValidationResponse` publishes. */
  function ValidationResponse(request: BalanceValidationRequest, v: Verdict, now: Time): Event {
    BalanceValidationResponse(request.validationId, REQUEST_SERVICE, request.phoneNumber, v.currentBalance,
                              request.requiredAmount, v.sufficient, v.status, now)
  }

  /** `processBalanceValidation`: look the wallet up (which may cache it) and answer once. */
  function Validation(s: Service, request: BalanceValidationRequest, now: Time): Service {
    var found := Find(s, request.phoneNumber);
    var e := found.after.env;
    found.after.(env := e.(events := e.events +
      [ValidationResponse(request, LookupVerdict(found.result, request.requiredAmount), now)]))
  }

  /** `processBalanceValidation` as written. */
  function ValidationAsWritten(s: Service, request: BalanceValidationRequest, now: Time): Service {
    var found := Find(s, request.phoneNumber);
    var e := found.after.env;
    found.after.(env := e.(events := e.events +
      [ValidationResponse(request, LookupVerdictAsWritten(found.result, request.requiredAmount), now)]))
  }

  /**
   * Every request is answered by exactly one response, appended after everything
   * already published, echoing the validation id, the phone and the required
   * amount.  No wallet is saved, nothing is recorded, no id is drawn and the
   * pending table is untouched; only the cache may gain the looked-up wallet.
   */
  lemma ValidationRespondsOnce(s: Service, request: BalanceValidationRequest, now: Time)
    requires Invariant(s)
    ensures var s1 := Validation(s, request, now);
            && Invariant(s1)
            && s1.env.store == s.env.store
            && s1.env.transactions == s.env.transactions
            && s1.env.nextId == s.env.nextId
            && s1.pending == s.pending
            && s1.env.cache == Find(s, request.phoneNumber).after.env.cache
            && |s1.env.events| == |s.env.events| + 1
            && s1.env.events[..|s.env.events|] == s.env.events
            && var r := s1.env.events[|s.env.events|];
               && r.BalanceValidationResponse?
               && r.validationId == request.validationId
               && r.requestService == REQUEST_SERVICE
               && r.phoneNumber == request.phoneNumber
               && r.requiredAmount == request.requiredAmount
  {
    FindKeepsInvariant(s, request.phoneNumber);
    var s1 := Validation(s, request, now);
    assert s1.env.events == s.env.events + [s1.env.events[|s.env.events|]];
  }

  /**
   * The response reports sufficiency exactly when the wallet is found, the
   * snapshot the lookup yields is ACTIVE and its balance covers the amount, and
   * then the status is SUFFICIENT_FUNDS.  A phone the store does not hold is
   * answered WALLET_NOT_FOUND and an inactive wallet WALLET_INACTIVE, both
   * quoting a zero balance.
   */
  lemma ValidationVerdict(s: Service, request: BalanceValidationRequest, now: Time)
    requires Invariant(s)
    ensures var r := Validation(s, request, now).env.events[|s.env.events|];
            var found := Find(s, request.phoneNumber).result;
            && (r.sufficientBalance <==>
                  && request.phoneNumber in s.env.store
                  && found.value.status == ACTIVE
                  && found.value.balance >= request.requiredAmount)
            && (r.sufficientBalance <==> r.status == SUFFICIENT_FUNDS)
            && (request.phoneNumber !in s.env.store ==>
                  !r.sufficientBalance && r.status == WALLET_NOT_FOUND && r.currentBalance == 0)
            && (request.phoneNumber in s.env.store && found.value.status != ACTIVE ==>
                  !r.sufficientBalance && r.status == WALLET_INACTIVE && r.currentBalance == 0)
            && (request.phoneNumber in s.env.store && found.value.status == ACTIVE ==>
                  r.currentBalance == found.value.balance)
  {
    FindKeepsInvariant(s, request.phoneNumber);
  }

  /**
   * As written, a phone neither cached nor stored is answered ERROR rather
   * than WALLET_NOT_FOUND; both answers deny sufficiency and quote a zero
   * balance.
   */
  lemma MissingWalletAnsweredAsError(s: Service, request: BalanceValidationRequest, now: Time)
    requires Invariant(s) && request.phoneNumber !in s.env.store
    ensures var r := ValidationAsWritten(s, request, now).env.events[|s.env.events|];
            r.status == ERROR && !r.sufficientBalance && r.currentBalance == 0
    ensures var r := Validation(s, request, now).env.events[|s.env.events|];
            r.status == WALLET_NOT_FOUND && !r.sufficientBalance && r.currentBalance == 0
  {
    InvariantAt(s.env.store, s.env.cache, s.env.nextId, request.phoneNumber);
  }

  class YankiBalanceValidationService {
    const walletService: YankiWalletService

    ghost predicate Valid()
      reads walletService, walletService.env
    {
      walletService.Valid()
    }

    constructor (walletService: YankiWalletService)
      requires walletService.Valid()
      ensures Valid() && this.walletService == walletService
    {
      this.walletService := walletService;
    }

    method ProcessBalanceValidation(request: BalanceValidationRequest, now: Time)
      requires Valid()
      modifies walletService.env`cache, walletService.env`events
      ensures Valid()
      ensures walletService.State() == Validation(old(walletService.State()), request, now)
    {
      ValidationRespondsOnce(walletService.State(), request, now);
      var found := walletService.FindByPhoneNumber(request.phoneNumber);
      match found {
        case Success(wallet) =>
          ValidateWalletBalance(wallet, request, now);
        case Failure(error) =>
          var status := if error.WalletNotFound? then WALLET_NOT_FOUND else ERROR;
          SendValidationResponseWithoutBalance(request, false, status, now);
      }
    }

    method ValidateWalletBalance(wallet: Wallet, request: BalanceValidationRequest, now: Time)
      modifies walletService.env`events
      ensures walletService.env.events ==
              old(walletService.env.events) + [ValidationResponse(request, WalletVerdict(wallet, request.requiredAmount), now)]
    {
      if wallet.status != ACTIVE {
        SendValidationResponseWithoutBalance(request, false, WALLET_INACTIVE, now);
        return;
      }
      var sufficientBalance := wallet.balance >= request.requiredAmount;
      var status := if sufficientBalance then SUFFICIENT_FUNDS else INSUFFICIENT_FUNDS;
      SendValidationResponse(request, sufficientBalance, status, wallet.balance, now);
    }

    method SendValidationResponse(request: BalanceValidationRequest, sufficient: bool, status: ValidationStatus,
                                  currentBalance: int, now: Time)
      modifies walletService.env`events
      ensures walletService.env.events ==
              old(walletService.env.events) + [ValidationResponse(request, Verdict(sufficient, status, currentBalance), now)]
    {
      walletService.env.Publish(ValidationResponse(request, Verdict(sufficient, status, currentBalance), now));
    }

    /** The overload that quotes no balance: a zero balance. */
    method SendValidationResponseWithoutBalance(request: BalanceValidationRequest, sufficient: bool,
                                                status: ValidationStatus, now: Time)
      modifies walletService.env`events
      ensures walletService.env.events ==
              old(walletService.env.events) + [ValidationResponse(request, Verdict(sufficient, status, 0), now)]
    {
      SendValidationResponse(request, sufficient, status, 0, now);
    }

    /** An inbound validation response is only logged. */
    method ProcessBalanceValidationResponse(response: Event)
      requires response.BalanceValidationResponse?
      ensures walletService.State() == old(walletService.State())
    {
    }
  }
}
