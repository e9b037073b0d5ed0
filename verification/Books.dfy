/** The wallets and the ledger, and the atomic specification of one money movement: what the
    transaction of each handler does when nothing else runs. */
module Books {
  import opened Domain
  import opened Fees

  datatype Books = Books(wallets: map<int, Wallet>, ledger: seq<Row>)

  datatype Reason = InvalidWallet | InsufficientFunds | VersionConflict | DuplicateReference

  datatype Result<+T> = Ok(value: T) | Err(reason: Reason)

  function Find(wallets: map<int, Wallet>, id: int): Option<Wallet> {
    if id in wallets then Some(wallets[id]) else None
  }

  /** The ownership test every handler applies to a wallet it has read. */
  predicate Owned(row: Option<Wallet>, userId: int, currency: string) {
    row.Some? && row.value.userId == userId && row.value.currency == currency && !row.value.deleted
  }

  /** wallet.update with the version in its where clause: matches and writes, or finds no row. */
  function Guarded(wallets: map<int, Wallet>, id: int, version: int, delta: int): Option<map<int, Wallet>> {
    if id in wallets && wallets[id].version == version
    then Some(wallets[id := wallets[id].(balance := wallets[id].balance + delta, version := version + 1)])
    else None
  }

  predicate Unused(ledger: seq<Row>, reference: string) {
    forall i :: 0 <= i < |ledger| ==> ledger[i].reference != reference
  }

  predicate DistinctReferences(rows: seq<Row>) {
    forall i, j :: 0 <= i < j < |rows| ==> rows[i].reference != rows[j].reference
  }

  /** The unique key on Transaction.reference accepts all of these rows. */
  predicate Insertable(ledger: seq<Row>, rows: seq<Row>) {
    DistinctReferences(rows) && forall i :: 0 <= i < |rows| ==> Unused(ledger, rows[i].reference)
  }

  /** An insert is accepted exactly when the ledger it leaves still has no reference twice. */
  lemma InsertableIff(ledger: seq<Row>, rows: seq<Row>)
    requires DistinctReferences(ledger)
    ensures Insertable(ledger, rows) <==> DistinctReferences(ledger + rows)
  {
    var longer := ledger + rows;
    if DistinctReferences(longer) {
      forall i, j | 0 <= i < j < |rows| ensures rows[i].reference != rows[j].reference {
        assert longer[|ledger| + i] == rows[i] && longer[|ledger| + j] == rows[j];
      }
      forall i, j | 0 <= i < |rows| && 0 <= j < |ledger| ensures ledger[j].reference != rows[i].reference {
        assert longer[|ledger| + i] == rows[i] && longer[j] == ledger[j];
      }
    }
  }

  /** The ledger rows a job writes. */
  function RowsOf(job: Job, fee: int): seq<Row> {
    match job
    case Fund(userId, walletId, _, amount, txId) =>
      [Row(userId, walletId, DEPOSIT, amount - fee, fee, txId, NoMetadata)]
    case Withdraw(userId, walletId, _, amount, txId) =>
      [Row(userId, walletId, WITHDRAWAL, amount, 0, txId, NoMetadata)]
    case Transfer(senderId, senderWalletId, recipientId, recipientWalletId, amount, _, txId) =>
      [Row(senderId, senderWalletId, TRANSFER, amount, 0, SenderReference(txId), To(recipientWalletId)),
       Row(recipientId, recipientWalletId, DEPOSIT, amount, 0, RecipientReference(txId), From(senderWalletId))]
  }

  lemma RowsAreSome(job: Job, fee: int)
    ensures |RowsOf(job, fee)| > 0
  {
  }

  /** The change of the first wallet: a net credit for a funding, a debit otherwise. */
  function FirstDelta(job: Job, fee: int): int {
    if job.Fund? then job.amount - fee else -job.amount
  }

  /** The checks a handler makes on the wallet rows it has read (second: transfers only). */
  function Vet(job: Job, first: Option<Wallet>, second: Option<Wallet>): Result<()> {
    if !Owned(first, job.Requester(), job.currency) then Err(InvalidWallet)
    else if job.Transfer? && !Owned(second, job.recipientId, job.currency) then Err(InvalidWallet)
    else if !job.Fund? && first.value.balance < job.amount then Err(InsufficientFunds)
    else Ok(())
  }

  function SecondRead(wallets: map<int, Wallet>, job: Job): Option<Wallet> {
    if job.Transfer? then Find(wallets, job.recipientWalletId) else None
  }

  function SecondUpdate(wallets: map<int, Wallet>, job: Job, second: Option<Wallet>): Option<map<int, Wallet>>
    requires job.Transfer? ==> second.Some?
  {
    if job.Transfer? then Guarded(wallets, job.recipientWalletId, second.value.version, job.amount) else Some(wallets)
  }

  /** One job run alone: read, check, update under the version guards, insert the rows. */
  function Serve(b: Books, job: Job, fee: int): Result<Books> {
    var first := Find(b.wallets, job.FirstWallet());
    var second := SecondRead(b.wallets, job);
    match Vet(job, first, second)
    case Err(reason) => Err(reason)
    case Ok(_) =>
      match Guarded(b.wallets, job.FirstWallet(), first.value.version, FirstDelta(job, fee))
      case None => Err(VersionConflict)
      case Some(once) =>
        match SecondUpdate(once, job, second)
        case None => Err(VersionConflict)
        case Some(wallets) =>
          if Insertable(b.ledger, RowsOf(job, fee))
          then Ok(Books(wallets, b.ledger + RowsOf(job, fee)))
          else Err(DuplicateReference)
  }

  /** The fee a handler may charge: the rounded half percent for a funding, nothing otherwise. */
  predicate Chargeable(job: Job, fee: int) {
    if job.Fund? then IsFee(job.amount, fee) else fee == 0
  }

  /** A same-wallet transfer never goes through: its first update makes the second guard stale. */
  lemma SameWalletTransferConflicts(b: Books, job: Job, fee: int)
    requires job.Transfer?
    ensures Serve(b, job, fee).Ok? ==> job.senderWalletId != job.recipientWalletId
    ensures job.senderWalletId == job.recipientWalletId
            && Vet(job, Find(b.wallets, job.FirstWallet()), SecondRead(b.wallets, job)).Ok?
            ==> Serve(b, job, fee) == Err(VersionConflict)
  {
  }

  /** When a job run alone goes through, by the handlers' own checks. */
  lemma ServedByChecks(b: Books, job: Job, fee: int)
    ensures Serve(b, job, fee).Ok? <==>
              && Vet(job, Find(b.wallets, job.FirstWallet()), SecondRead(b.wallets, job)).Ok?
              && (job.Transfer? ==> job.senderWalletId != job.recipientWalletId)
              && forall i :: 0 <= i < |RowsOf(job, fee)| ==> Unused(b.ledger, RowsOf(job, fee)[i].reference)
  {
    if job.Transfer? {
      assert |SenderReference(job.txId)| == |job.txId| + 7;
      assert |RecipientReference(job.txId)| == |job.txId| + 10;
    }
  }

  /** For specifications only: the user has this wallet, live and in this currency. */
  predicate HasWallet(wallets: map<int, Wallet>, userId: int, id: int, currency: string) {
    && id in wallets
    && wallets[id].userId == userId && wallets[id].currency == currency && !wallets[id].deleted
  }

  /** For specifications only: some ledger row has this reference. */
  predicate Referenced(ledger: seq<Row>, reference: string) {
    exists i :: 0 <= i < |ledger| && ledger[i].reference == reference
  }

  /** The wallets a job names are its users' own. */
  predicate WalletsFit(wallets: map<int, Wallet>, job: Job) {
    match job
    case Fund(userId, walletId, currency, _, _) => HasWallet(wallets, userId, walletId, currency)
    case Withdraw(userId, walletId, currency, _, _) => HasWallet(wallets, userId, walletId, currency)
    case Transfer(senderId, senderWalletId, recipientId, recipientWalletId, _, currency, _) =>
      && HasWallet(wallets, senderId, senderWalletId, currency)
      && HasWallet(wallets, recipientId, recipientWalletId, currency)
  }

  /** The wallet that pays holds at least the amount; a funding pays from nothing. */
  predicate FundsSuffice(wallets: map<int, Wallet>, job: Job)
    requires WalletsFit(wallets, job)
  {
    match job
    case Fund(_, _, _, _, _) => true
    case Withdraw(_, walletId, _, amount, _) => wallets[walletId].balance >= amount
    case Transfer(_, senderWalletId, _, _, amount, _, _) => wallets[senderWalletId].balance >= amount
  }

  /** Nobody has used a reference the job needs. */
  predicate ReferencesFree(ledger: seq<Row>, job: Job) {
    match job
    case Fund(_, _, _, _, txId) => !Referenced(ledger, txId)
    case Withdraw(_, _, _, _, txId) => !Referenced(ledger, txId)
    case Transfer(_, _, _, _, _, _, txId) =>
      !Referenced(ledger, txId + "-sender") && !Referenced(ledger, txId + "-recipient")
  }

  predicate TwoWallets(job: Job) {
    job.Transfer? ==> job.senderWalletId != job.recipientWalletId
  }

  /** Exactly when a job run alone goes through: its users have the wallets it names, a payer has enough, a
      transfer joins two wallets, and its references are free. And which reason each refusal gives. */
  lemma ServedIff(b: Books, job: Job, fee: int)
    ensures Serve(b, job, fee).Ok? <==>
              && WalletsFit(b.wallets, job) && FundsSuffice(b.wallets, job)
              && TwoWallets(job) && ReferencesFree(b.ledger, job)
    ensures Serve(b, job, fee) == Err(InvalidWallet) <==> !WalletsFit(b.wallets, job)
    ensures Serve(b, job, fee) == Err(InsufficientFunds) <==>
              WalletsFit(b.wallets, job) && !FundsSuffice(b.wallets, job)
    ensures Serve(b, job, fee) == Err(VersionConflict) <==>
              WalletsFit(b.wallets, job) && FundsSuffice(b.wallets, job) && !TwoWallets(job)
    ensures Serve(b, job, fee) == Err(DuplicateReference) <==>
              && WalletsFit(b.wallets, job) && FundsSuffice(b.wallets, job)
              && TwoWallets(job) && !ReferencesFree(b.ledger, job)
  {
    ServedByChecks(b, job, fee);
    VetMeans(b.wallets, job);
    FreeMeansUnused(b.ledger, job, fee);
    hide RowsOf, Insertable, WalletsFit, FundsSuffice, ReferencesFree;
  }

  lemma VetMeans(wallets: map<int, Wallet>, job: Job)
    ensures var vetted := Vet(job, Find(wallets, job.FirstWallet()), SecondRead(wallets, job));
            && (vetted == Err(InvalidWallet) <==> !WalletsFit(wallets, job))
            && (vetted == Err(InsufficientFunds) <==> WalletsFit(wallets, job) && !FundsSuffice(wallets, job))
            && (vetted.Ok? <==> WalletsFit(wallets, job) && FundsSuffice(wallets, job))
  {
  }

  lemma FreeMeansUnused(ledger: seq<Row>, job: Job, fee: int)
    ensures ReferencesFree(ledger, job) <==>
              forall i :: 0 <= i < |RowsOf(job, fee)| ==> Unused(ledger, RowsOf(job, fee)[i].reference)
  {
    var rows := RowsOf(job, fee);
    assert rows[0].reference == if job.Transfer? then job.txId + "-sender" else job.txId;
    assert job.Transfer? ==> |rows| == 2 && rows[1].reference == job.txId + "-recipient";
    assert !job.Transfer? ==> |rows| == 1;
  }

  /** No transfer shares a reference with another transfer. */
  lemma ReferencesApart(x: string, y: string)
    ensures SenderReference(x) != RecipientReference(y)
    ensures SenderReference(x) == SenderReference(y) || RecipientReference(x) == RecipientReference(y) ==> x == y
  {
    var s, r := SenderReference(x), RecipientReference(y);
    assert s[|s| - 1] == 'r' && r[|r| - 1] == 't';
    assert SenderReference(x)[..|x|] == RecipientReference(x)[..|x|] == x;
    assert SenderReference(y)[..|y|] == RecipientReference(y)[..|y|] == y;
  }

  /** What a served job leaves behind, wallet by wallet and row by row. */
  lemma ServedEffect(b: Books, job: Job, fee: int, id: int)
    requires Serve(b, job, fee).Ok?
    ensures var after := Serve(b, job, fee).value;
            && after.wallets.Keys == b.wallets.Keys
            && after.ledger == b.ledger + RowsOf(job, fee)
            && job.FirstWallet() in b.wallets
            && (job.Transfer? ==> job.recipientWalletId in b.wallets && job.recipientWalletId != job.senderWalletId)
            && (id in b.wallets ==>
                  after.wallets[id] ==
                    if !job.Names(id) then b.wallets[id]
                    else b.wallets[id].(version := b.wallets[id].version + 1,
                                        balance := b.wallets[id].balance
                                          + if id == job.FirstWallet() then FirstDelta(job, fee) else job.amount))
  {
  }
}
