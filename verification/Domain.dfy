/** The rows, jobs and messages of the wallet service. Money is an integer count of
    0.0001 units, the scale of the balance and amount columns. */
module Domain {

  datatype Option<+T> = None | Some(value: T)

  datatype Status = Pending | Success | Failed

  /** A row of the Wallet table; its id is the key under which a table stores it. */
  datatype Wallet = Wallet(userId: int, currency: string, balance: int, version: int,
                           createdAt: int, deleted: bool)

  /** A row of the WalletRequest table, stored under its unique txId: the "ticket" of a job. */
  datatype Ticket = Ticket(userId: int, currency: string, status: Status)

  datatype Kind = DEPOSIT | WITHDRAWAL | TRANSFER

  datatype Metadata = NoMetadata | To(to: int) | From(from: int)

  /** A row of the Transaction table (the ledger). Every row is written with status success. */
  datatype Row = Row(userId: int, walletId: int, kind: Kind, amount: int, fee: int,
                     reference: string, metadata: Metadata)

  datatype Job =
    | Fund(userId: int, walletId: int, currency: string, amount: int, txId: string)
    | Withdraw(userId: int, walletId: int, currency: string, amount: int, txId: string)
    | Transfer(senderId: int, senderWalletId: int, recipientId: int, recipientWalletId: int,
               amount: int, currency: string, txId: string)
  {
    /** The user in whose name the ticket is written, and who owns the first wallet. */
    function Requester(): int {
      if Transfer? then senderId else userId
    }

    /** The wallet updated first, and for a transfer the one updated second. */
    function FirstWallet(): int {
      if Transfer? then senderWalletId else walletId
    }

    predicate Names(id: int) {
      id == FirstWallet() || (Transfer? && id == recipientWalletId)
    }
  }

  /** One cent in units of 0.0001. */
  const CENT := 100

  /** What the request validation lets through: withdrawals and transfers carry a minimum of
      one cent, fundings carry no bound at all. */
  predicate Admissible(job: Job) {
    job.Fund? || job.amount >= CENT
  }

  function SenderReference(txId: string): string {
    txId + "-sender"
  }

  function RecipientReference(txId: string): string {
    txId + "-recipient"
  }

  datatype Outcome = Returned | Threw

  /** Some element of a non-empty set. */
  ghost function Pick<T(!new)>(s: set<T>): (x: T)
    requires s != {}
    ensures x in s
  {
    var y: T :| y in s; y
  }
}
