/**
 * The records the core builds, persists, keeps pending or exchanges as events.
 * Each is a flat value; only the fields the core fills in are kept.
 */
module Records {
  import opened Wrappers
  import opened YankiWalletModel

  /** The `source` tag of every request sent to the credit system. */
  const SOURCE: string := "YANKI_SERVICE"
  /** The `merchant` of a consumption request. */
  const TRANSFER_MERCHANT: string := "YANKI_TRANSFER"
  /** The `requestService` of a balance-validation response. */
  const REQUEST_SERVICE: string := "yanki-service"

  datatype TransactionStatus = PENDING | COMPLETED

  datatype TransactionType = TRANSFER | PAYMENT | DEPOSIT

  /** The business-level transaction returned to the caller of a payment. */
  datatype Transaction = Transaction(
    id: Id,
    amount: int,
    fromWalletId: Id,
    toWalletId: Option<Id>,
    fromPhoneNumber: Phone,
    toPhoneNumber: Phone,
    description: string,
    status: TransactionStatus,
    transactionDate: Time)

  /** A document appended to the `yanki_transactions` collection. */
  datatype YankiTransaction = YankiTransaction(
    id: Id,
    transactionId: Id,
    amount: int,
    fromWalletId: Id,
    toWalletId: Id,
    fromPhoneNumber: Phone,
    toPhoneNumber: Phone,
    description: string,
    transactionType: TransactionType,
    status: TransactionStatus,
    transactionDate: Time,
    createdAt: Time,
    updatedAt: Time)

  /** A transfer suspended until the credit system answers its balance inquiry. */
  datatype PendingTransaction = PendingTransaction(
    fromWallet: Wallet,
    toPhoneNumber: Phone,
    amount: int,
    description: string,
    createdAt: Time,
    transactionId: Id)

  /** Inbound: the credit system's answer to a balance inquiry. */
  datatype CreditBalanceResponse = CreditBalanceResponse(
    inquiryId: Id,
    creditId: string,
    isValid: bool,
    reason: string)

  /** Inbound: another system asks for a wallet-to-wallet payment. */
  datatype YankiPaymentRequest = YankiPaymentRequest(
    paymentId: Id,
    requestId: Id,
    fromPhoneNumber: Phone,
    toPhoneNumber: Phone,
    amount: int,
    description: string)

  /** Inbound: another system asks whether a wallet covers an amount. */
  datatype BalanceValidationRequest = BalanceValidationRequest(
    validationId: Id,
    phoneNumber: Phone,
    requiredAmount: int)

  /** The `status` strings of a balance-validation response. */
  datatype ValidationStatus =
    | SUFFICIENT_FUNDS
    | INSUFFICIENT_FUNDS
    | WALLET_INACTIVE
    | WALLET_NOT_FOUND
    | ERROR

  /** What the `message` of a payment-completed response reports. */
  datatype PaymentMessage =
    | MissingWallet(phoneNumber: Phone)
    | BalanceInsufficient(available: int, required: int)
    | Processed

  /** Outbound events, one constructor per kind. */
  datatype Event =
    | WalletCreated(
        walletId: Id, phoneNumber: Phone, documentNumber: string,
        documentType: DocumentType, email: string, createdAt: Time)
    | CardAssociated(
        walletId: Id, phoneNumber: Phone, creditId: Option<string>, associatedAt: Time)
    | CreditBalanceInquiry(
        inquiryId: Id, creditId: Option<string>, requiredAmount: int, source: string,
        transactionId: Id, fromPhoneNumber: Phone, toPhoneNumber: Phone, description: string)
    | TransactionPaymentRequest(
        paymentId: Id, creditId: Option<string>, amount: int, description: string,
        customerId: string, paymentDate: Time, source: string)
    | TransactionConsumptionRequest(
        consumptionId: Id, creditId: Option<string>, amount: int, description: string,
        merchant: string, transactionDate: Time, source: string)
    | YankiPaymentCompleted(
        paymentId: Id, requestId: Id, success: bool, message: PaymentMessage, timestamp: Time)
    | BalanceValidationResponse(
        validationId: Id, requestService: string, phoneNumber: Phone, currentBalance: int,
        requiredAmount: int, sufficientBalance: bool, status: ValidationStatus, timestamp: Time)

  /** A COMPLETED transfer document; the wallets give the ids and the source phone. */
  function TransferRecord(id: Id, transactionId: Id, amount: int, from: Wallet, to: Wallet,
                          toPhone: Phone, description: string, now: Time): YankiTransaction
  {
    YankiTransaction(id, transactionId, amount, from.id, to.id, from.phoneNumber, toPhone,
                     description, TRANSFER, COMPLETED, now, now, now)
  }
}
