/** The books as a function of the events committed so far, in commit order. An event history
    is legal when each event passes its own checks on the books the earlier ones leave. */
module History {
  import opened Domain
  import opened Fees
  import opened Books

  datatype Event =
    | Opened(id: int, userId: int, currency: string, at: int)  // createWallet inserted a wallet
    | Logged(txId: string)                                     // createWallet inserted a success ticket
    | Moved(job: Job, fee: int)                                // a money movement committed

  function NewWallet(userId: int, currency: string, at: int): Wallet {
    Wallet(userId, currency, 0, 0, at, false)
  }

  /** The unique key on (userId, currency); it also counts deleted wallets. */
  predicate Vacant(wallets: map<int, Wallet>, userId: int, currency: string) {
    forall id | id in wallets :: wallets[id].userId != userId || wallets[id].currency != currency
  }

  predicate OneWalletPerCurrency(wallets: map<int, Wallet>) {
    forall i, j | i in wallets && j in wallets && i != j ::
      wallets[i].userId != wallets[j].userId || wallets[i].currency != wallets[j].currency
  }

  predicate Accepts(b: Books, e: Event) {
    match e
    case Opened(id, userId, currency, _) => id !in b.wallets && Vacant(b.wallets, userId, currency)
    case Logged(_) => true
    case Moved(job, fee) => Admissible(job) && Chargeable(job, fee) && Serve(b, job, fee).Ok?
  }

  function Perform(b: Books, e: Event): Books {
    match e
    case Opened(id, userId, currency, at) => Books(b.wallets[id := NewWallet(userId, currency, at)], b.ledger)
    case Logged(_) => b
    case Moved(job, fee) => if Serve(b, job, fee).Ok? then Serve(b, job, fee).value else b
  }

  /** The books after the first k events. */
  function At(start: Books, h: seq<Event>, k: nat): Books
    requires k <= |h|
  {
    if k == 0 then start else Perform(At(start, h, k - 1), h[k - 1])
  }

  function Now(start: Books, h: seq<Event>): Books {
    At(start, h, |h|)
  }

  predicate AcceptedAt(start: Books, h: seq<Event>, k: nat)
    requires k < |h|
  {
    Accepts(At(start, h, k), h[k])
  }

  ghost predicate Legal(start: Books, h: seq<Event>) {
    forall k {:trigger AcceptedAt(start, h, k)} :: 0 <= k < |h| ==> AcceptedAt(start, h, k)
  }

  lemma {:induction false} AtPrefix(start: Books, h: seq<Event>, longer: seq<Event>, k: nat)
    requires k <= |h| && h <= longer
    ensures At(start, longer, k) == At(start, h, k)
  {
    if k > 0 { AtPrefix(start, h, longer, k - 1); }
  }

  lemma Extend(start: Books, h: seq<Event>, e: Event)
    requires Legal(start, h) && Accepts(Now(start, h), e)
    ensures Legal(start, h + [e]) && Now(start, h + [e]) == Perform(Now(start, h), e)
  {
    AtPrefix(start, h, h + [e], |h|);
    forall k | 0 <= k < |h| ensures AcceptedAt(start, h + [e], k) {
      AtPrefix(start, h, h + [e], k);
      assert AcceptedAt(start, h, k);
    }
    assert AcceptedAt(start, h + [e], |h|);
  }

  // ---------------------------------------------------------------- one wallet through time

  predicate Touches(e: Event, id: int) {
    e.Moved? && e.job.Names(id)
  }

  /** Owner, currency, creation time and deletion mark never change; versions never go down;
      and a version determines the whole row. */
  predicate Later(before: Wallet, after: Wallet) {
    && after.userId == before.userId && after.currency == before.currency
    && after.createdAt == before.createdAt && after.deleted == before.deleted
    && before.version <= after.version
    && (before.version == after.version ==> after == before)
  }

  lemma {:induction false} VersionDeterminesRow(start: Books, h: seq<Event>, i: nat, j: nat, id: int)
    requires Legal(start, h) && i <= j <= |h| && id in At(start, h, i).wallets
    ensures id in At(start, h, j).wallets
    ensures Later(At(start, h, i).wallets[id], At(start, h, j).wallets[id])
  {
    if i < j {
      VersionDeterminesRow(start, h, i, j - 1, id);
      assert AcceptedAt(start, h, j - 1);
    }
  }

  /** A version that moved on between two moments was moved by a committed job naming the wallet. */
  lemma {:induction false} StaleVersionHasWitness(start: Books, h: seq<Event>, i: nat, j: nat, id: int) returns (k: nat)
    requires Legal(start, h) && i <= j <= |h| && id in At(start, h, i).wallets
    requires id !in At(start, h, j).wallets
             || At(start, h, j).wallets[id].version != At(start, h, i).wallets[id].version
    ensures i <= k < j && Touches(h[k], id)
  {
    VersionDeterminesRow(start, h, i, j - 1, id);
    if Touches(h[j - 1], id) {
      k := j - 1;
    } else {
      assert AcceptedAt(start, h, j - 1);
      k := StaleVersionHasWitness(start, h, i, j - 1, id);
    }
  }

  lemma {:induction false} OwnersStayDistinct(start: Books, h: seq<Event>, k: nat)
    requires Legal(start, h) && k <= |h| && OneWalletPerCurrency(start.wallets)
    ensures OneWalletPerCurrency(At(start, h, k).wallets)
  {
    if k > 0 {
      OwnersStayDistinct(start, h, k - 1);
      var b := At(start, h, k - 1);
      assert AcceptedAt(start, h, k - 1);
      forall i | i in b.wallets && h[k - 1].Moved?
        ensures i in Perform(b, h[k - 1]).wallets && Later(b.wallets[i], Perform(b, h[k - 1]).wallets[i])
      {
        ServedEffect(b, h[k - 1].job, h[k - 1].fee, i);
      }
      if h[k - 1].Moved? { ServedEffect(b, h[k - 1].job, h[k - 1].fee, 0); }
    }
  }

  /** The wallets a job names belong to its users and hold its currency. */
  predicate NamesItsOwn(wallets: map<int, Wallet>, job: Job) {
    && Owned(Find(wallets, job.FirstWallet()), job.Requester(), job.currency)
    && (job.Transfer? ==> Owned(Find(wallets, job.recipientWalletId), job.recipientId, job.currency))
  }

  /** Every wallet a committed job names belongs to the user the job says and holds the job's currency,
      when the job commits and at every later moment. */
  lemma MovedWalletsAreOwned(start: Books, h: seq<Event>, k: nat, n: nat)
    requires Legal(start, h) && k < |h| && h[k].Moved? && k <= n <= |h|
    ensures NamesItsOwn(At(start, h, n).wallets, h[k].job)
  {
    assert AcceptedAt(start, h, k);
    VersionDeterminesRow(start, h, k, n, h[k].job.FirstWallet());
    if h[k].job.Transfer? { VersionDeterminesRow(start, h, k, n, h[k].job.recipientWalletId); }
  }

  /** Committed transfers join two wallets of two users. */
  lemma TransfersJoinTwoUsers(start: Books, h: seq<Event>, k: nat)
    requires Legal(start, h) && k < |h| && h[k].Moved? && h[k].job.Transfer?
    requires OneWalletPerCurrency(start.wallets)
    ensures h[k].job.senderWalletId != h[k].job.recipientWalletId
    ensures h[k].job.senderId != h[k].job.recipientId
  {
    assert AcceptedAt(start, h, k);
    OwnersStayDistinct(start, h, k);
    SameWalletTransferConflicts(At(start, h, k), h[k].job, h[k].fee);
  }

  // ---------------------------------------------------------------- the ledger

  /** The rows of the first k events, in order. */
  function Posted(h: seq<Event>, k: nat): seq<Row>
    requires k <= |h|
  {
    if k == 0 then []
    else Posted(h, k - 1) + if h[k - 1].Moved? then RowsOf(h[k - 1].job, h[k - 1].fee) else []
  }

  lemma {:induction false} LedgerIsPosted(start: Books, h: seq<Event>, k: nat)
    requires Legal(start, h) && k <= |h| && start.ledger == []
    ensures At(start, h, k).ledger == Posted(h, k)
    ensures DistinctReferences(At(start, h, k).ledger)
  {
    if k > 0 {
      LedgerIsPosted(start, h, k - 1);
      var b, e := At(start, h, k - 1), h[k - 1];
      assert AcceptedAt(start, h, k - 1);
    }
  }

  predicate RowOwned(b: Books, r: nat)
    requires r < |b.ledger|
  {
    b.ledger[r].walletId in b.wallets && b.wallets[b.ledger[r].walletId].userId == b.ledger[r].userId
  }

  /** The rows a job writes name wallets it has found to be its users' own. */
  lemma NewRowsAreOwned(b: Books, job: Job, fee: int, r: nat)
    requires Serve(b, job, fee).Ok? && |b.ledger| <= r < |Serve(b, job, fee).value.ledger|
    ensures RowOwned(Serve(b, job, fee).value, r)
  {
    var row := Serve(b, job, fee).value.ledger[r];
    assert Vet(job, Find(b.wallets, job.FirstWallet()), SecondRead(b.wallets, job)).Ok?;
    ServedEffect(b, job, fee, row.walletId);
    assert row == RowsOf(job, fee)[r - |b.ledger|];
    hide Serve;
  }

  /** Each row names a wallet of its own user, as it stood when the row was written and ever since. */
  lemma {:induction false} RowsAreOwned(start: Books, h: seq<Event>, k: nat, r: nat)
    requires Legal(start, h) && k <= |h| && start.ledger == [] && r < |At(start, h, k).ledger|
    ensures RowOwned(At(start, h, k), r)
  {
    if k > 0 {
      var before, e := At(start, h, k - 1), h[k - 1];
      assert AcceptedAt(start, h, k - 1);
      if e.Moved? { ServedEffect(before, e.job, e.fee, 0); }
      hide Serve, Legal, RowsOf;
      if r < |before.ledger| {
        RowsAreOwned(start, h, k - 1, r);
        VersionDeterminesRow(start, h, k - 1, k, before.ledger[r].walletId);
      } else {
        NewRowsAreOwned(before, e.job, e.fee, r);
      }
    }
  }

  function Signed(row: Row): int {
    if row.kind == DEPOSIT then row.amount else -row.amount
  }

  /** The signed sum of the ledger rows naming a wallet, and how many there are. */
  function Net(ledger: seq<Row>, id: int): int {
    if ledger == [] then 0
    else Net(ledger[..|ledger| - 1], id)
         + if ledger[|ledger| - 1].walletId == id then Signed(ledger[|ledger| - 1]) else 0
  }

  function Entries(ledger: seq<Row>, id: int): nat {
    if ledger == [] then 0
    else Entries(ledger[..|ledger| - 1], id) + if ledger[|ledger| - 1].walletId == id then 1 else 0
  }

  lemma AppendRow(ledger: seq<Row>, row: Row, id: int)
    ensures Net(ledger + [row], id) == Net(ledger, id) + if row.walletId == id then Signed(row) else 0
    ensures Entries(ledger + [row], id) == Entries(ledger, id) + if row.walletId == id then 1 else 0
  {
    assert (ledger + [row])[..|ledger|] == ledger;
  }

  /** What the rows of one job add to a wallet. */
  lemma AppendRows(ledger: seq<Row>, job: Job, fee: int, id: int)
    requires job.Transfer? ==> job.senderWalletId != job.recipientWalletId
    ensures Net(ledger + RowsOf(job, fee), id) == Net(ledger, id)
            + if id == job.FirstWallet() then FirstDelta(job, fee) else if job.Names(id) then job.amount else 0
    ensures Entries(ledger + RowsOf(job, fee), id) == Entries(ledger, id) + if job.Names(id) then 1 else 0
  {
    hide Net, Entries;
    var rows := RowsOf(job, fee);
    AppendRow(ledger, rows[0], id);
    if job.Transfer? {
      AppendRow(ledger + [rows[0]], rows[1], id);
      assert ledger + rows == (ledger + [rows[0]]) + [rows[1]];
    } else {
      assert rows == [rows[0]];
    }
  }

  function StartBalance(start: Books, id: int): int {
    if id in start.wallets then start.wallets[id].balance else 0
  }

  function StartVersion(start: Books, id: int): int {
    if id in start.wallets then start.wallets[id].version else 0
  }

  predicate ReconciledAt(start: Books, b: Books, id: int) {
    if id in b.wallets
    then b.wallets[id].balance == StartBalance(start, id) + Net(b.ledger, id)
         && b.wallets[id].version == StartVersion(start, id) + Entries(b.ledger, id)
    else Net(b.ledger, id) == 0 && Entries(b.ledger, id) == 0 && id !in start.wallets
  }

  lemma EventReconciles(start: Books, b: Books, e: Event, id: int)
    requires ReconciledAt(start, b, id) && Accepts(b, e)
    ensures ReconciledAt(start, Perform(b, e), id)
  {
    if e.Moved? {
      ServedEffect(b, e.job, e.fee, id);
      AppendRows(b.ledger, e.job, e.fee, id);
      hide Serve, RowsOf, Net, Entries;
    }
  }

  /** Balances, versions and the ledger tell the same story about every wallet. A wallet that
      does not exist yet is named by no row. */
  lemma {:induction false} Reconciled(start: Books, h: seq<Event>, k: nat, id: int)
    requires Legal(start, h) && k <= |h| && start.ledger == []
    ensures ReconciledAt(start, At(start, h, k), id)
  {
    if k > 0 {
      hide Accepts, Perform, ReconciledAt;
      Reconciled(start, h, k - 1, id);
      assert AcceptedAt(start, h, k - 1);
      EventReconciles(start, At(start, h, k - 1), h[k - 1], id);
    }
  }

  // ---------------------------------------------------------------- references

  /** The event put this reference into the ledger. */
  predicate Writes(e: Event, reference: string) {
    && e.Moved?
    && if e.job.Transfer? then reference == SenderReference(e.job.txId) || reference == RecipientReference(e.job.txId)
       else reference == e.job.txId
  }

  /** A reference is free exactly when no event so far wrote it. */
  lemma {:induction false} UnusedIff(start: Books, h: seq<Event>, k: nat, reference: string)
    requires Legal(start, h) && k <= |h| && start.ledger == []
    ensures Unused(At(start, h, k).ledger, reference) <==> forall i :: 0 <= i < k ==> !Writes(h[i], reference)
  {
    if k > 0 {
      UnusedIff(start, h, k - 1, reference);
      var b, e := At(start, h, k - 1), h[k - 1];
      assert AcceptedAt(start, h, k - 1);
      if e.Moved? {
        ServedEffect(b, e.job, e.fee, 0);
        UnusedAppended(b.ledger, e.job, e.fee, reference);
      }
      hide Serve, At;
    }
  }

  lemma WritesItsRows(job: Job, fee: int, reference: string)
    ensures Writes(Moved(job, fee), reference) <==> !Unused(RowsOf(job, fee), reference)
  {
    var rows := RowsOf(job, fee);
    assert rows[0].reference == if job.Transfer? then SenderReference(job.txId) else job.txId;
    assert job.Transfer? ==> rows[1].reference == RecipientReference(job.txId);
  }

  lemma UnusedAppended(ledger: seq<Row>, job: Job, fee: int, reference: string)
    ensures Unused(ledger + RowsOf(job, fee), reference) <==>
              Unused(ledger, reference) && !Writes(Moved(job, fee), reference)
  {
    WritesItsRows(job, fee, reference);
    hide RowsOf, Writes;
    var rows := RowsOf(job, fee);
    var longer := ledger + rows;
    if Unused(longer, reference) {
      forall i | 0 <= i < |ledger| ensures ledger[i].reference != reference { assert longer[i] == ledger[i]; }
      forall i | 0 <= i < |rows| ensures rows[i].reference != reference { assert longer[|ledger| + i] == rows[i]; }
    }
  }

  /** No reference is written twice, by whatever kinds of job. */
  lemma OneWriterPerReference(start: Books, h: seq<Event>, i: nat, j: nat, reference: string)
    requires Legal(start, h) && start.ledger == [] && i < j < |h| && Writes(h[i], reference)
    ensures !Writes(h[j], reference)
  {
    var b, e := At(start, h, j), h[j];
    assert AcceptedAt(start, h, j);
    UnusedIff(start, h, j, reference);
    if e.Moved? {
      ServedByChecks(b, e.job, e.fee);
      WritesItsRows(e.job, e.fee, reference);
      hide Serve, At, Vet, RowsOf, Writes;
    }
  }

  /** After any history a funding or withdrawal goes through exactly when it passes its checks and no event
      wrote its txId as a reference: none under the same txId, and no transfer of which it is a reference. */
  lemma SingleRowServedIff(start: Books, h: seq<Event>, k: nat, job: Job, fee: int)
    requires Legal(start, h) && k <= |h| && start.ledger == [] && !job.Transfer?
    ensures var b := At(start, h, k);
            Serve(b, job, fee).Ok? <==>
              && WalletsFit(b.wallets, job) && FundsSuffice(b.wallets, job)
              && forall i :: 0 <= i < k && h[i].Moved? ==>
                   if h[i].job.Transfer?
                   then SenderReference(h[i].job.txId) != job.txId && RecipientReference(h[i].job.txId) != job.txId
                   else h[i].job.txId != job.txId
  {
    var b, rows := At(start, h, k), RowsOf(job, fee);
    ServedByChecks(b, job, fee);
    VetMeans(b.wallets, job);
    UnusedIff(start, h, k, job.txId);
    assert |rows| == 1 && rows[0].reference == job.txId;
    hide Serve, At, Vet, Unused, RowsOf, SenderReference, RecipientReference, WalletsFit, FundsSuffice;
  }

  /** The event is transfer txId itself, or a funding or withdrawal whose txId is one of its references. */
  predicate Claims(e: Event, txId: string) {
    Writes(e, SenderReference(txId)) || Writes(e, RecipientReference(txId))
  }

  /** Which jobs claim the references of transfer txId. */
  lemma ClaimsMeans(e: Event, txId: string)
    ensures Claims(e, txId) <==>
              && e.Moved?
              && if e.job.Transfer? then e.job.txId == txId
                 else e.job.txId == SenderReference(txId) || e.job.txId == RecipientReference(txId)
  {
    if e.Moved? && e.job.Transfer? {
      ReferencesApart(e.job.txId, txId);
      ReferencesApart(txId, e.job.txId);
    }
  }

  /** After any history a transfer goes through exactly when it passes its checks, joins two wallets and
      nothing has claimed its references. */
  lemma TransferServedIff(start: Books, h: seq<Event>, k: nat, transfer: Job)
    requires Legal(start, h) && k <= |h| && start.ledger == [] && transfer.Transfer?
    ensures var b := At(start, h, k);
            Serve(b, transfer, 0).Ok? <==>
              && WalletsFit(b.wallets, transfer) && FundsSuffice(b.wallets, transfer)
              && transfer.senderWalletId != transfer.recipientWalletId
              && forall i :: 0 <= i < k ==> !Claims(h[i], transfer.txId)
  {
    var b, rows := At(start, h, k), RowsOf(transfer, 0);
    ServedByChecks(b, transfer, 0);
    VetMeans(b.wallets, transfer);
    UnusedIff(start, h, k, SenderReference(transfer.txId));
    UnusedIff(start, h, k, RecipientReference(transfer.txId));
    hide Serve, At, Vet, Writes, Unused, SenderReference, RecipientReference, WalletsFit, FundsSuffice;
    assert rows[0].reference == SenderReference(transfer.txId);
    assert rows[1].reference == RecipientReference(transfer.txId);
    assert |rows| == 2;
  }

  /** The references share one namespace: once a funding or withdrawal has claimed one of transfer txId's,
      that transfer is rejected in every later state, and is part of no such history, before or after. */
  lemma ForeignReferenceBlocks(start: Books, h: seq<Event>, k: nat, n: nat, transfer: Job)
    requires Legal(start, h) && k < n <= |h| && start.ledger == [] && transfer.Transfer?
    requires h[k].Moved? && !h[k].job.Transfer? && Claims(h[k], transfer.txId)
    ensures Serve(At(start, h, n), transfer, 0).Err?
    ensures forall j :: 0 <= j < |h| && h[j].Moved? && h[j].job.Transfer? ==> h[j].job.txId != transfer.txId
  {
    TransferServedIff(start, h, n, transfer);
    var reference := h[k].job.txId;
    forall j | 0 <= j < |h| && h[j].Moved? && h[j].job.Transfer? ensures h[j].job.txId != transfer.txId {
      if j < k && Writes(h[j], reference) { OneWriterPerReference(start, h, j, k, reference); }
      if k < j { OneWriterPerReference(start, h, k, j, reference); }
    }
  }

  /** And such a claim is accepted: funding "x-sender" turns a transfer "x" that would go through into a
      duplicate reference. */
  lemma ForeignReferenceHappens()
    ensures var b := Books(map[1 := Wallet(7, "NGN", 500, 0, 0, false), 2 := NewWallet(8, "NGN", 1)], []);
            var funding := Fund(7, 1, "NGN", 20000, "x-sender");
            var transfer := Transfer(7, 1, 8, 2, 500, "NGN", "x");
            && Serve(b, transfer, 0).Ok?
            && Accepts(b, Moved(funding, 100)) && Claims(Moved(funding, 100), "x")
            && Serve(Perform(b, Moved(funding, 100)), transfer, 0) == Err(DuplicateReference)
  {
    var b := Books(map[1 := Wallet(7, "NGN", 500, 0, 0, false), 2 := NewWallet(8, "NGN", 1)], []);
    var funding := Fund(7, 1, "NGN", 20000, "x-sender");
    var transfer := Transfer(7, 1, 8, 2, 500, "NGN", "x");
    assert "x" + "-sender" == "x-sender";
    ServedIff(b, transfer, 0);
    ServedIff(b, funding, 100);
    var after := Perform(b, Moved(funding, 100));
    assert after.ledger[0].reference == "x-sender";
    ServedIff(after, transfer, 0);
  }

  // ---------------------------------------------------------------- overdraft

  predicate NonNegative(wallets: map<int, Wallet>) {
    forall id | id in wallets :: wallets[id].balance >= 0
  }

  /** No overdraft, provided no wallet starts below zero and no funding amount is negative. */
  lemma {:induction false} NeverOverdrawn(start: Books, h: seq<Event>, k: nat)
    requires Legal(start, h) && k <= |h| && NonNegative(start.wallets)
    requires forall i :: 0 <= i < k && h[i].Moved? && h[i].job.Fund? ==> h[i].job.amount >= 0
    ensures NonNegative(At(start, h, k).wallets)
  {
    if k > 0 {
      NeverOverdrawn(start, h, k - 1);
      var b, e := At(start, h, k - 1), h[k - 1];
      assert AcceptedAt(start, h, k - 1);
      if e.Moved? {
        if e.job.Fund? { FeeWithinAmount(e.job.amount, e.fee); }
        forall id | id in b.wallets ensures Perform(b, e).wallets[id].balance >= 0 {
          ServedEffect(b, e.job, e.fee, id);
        }
        ServedEffect(b, e.job, e.fee, 0);
      }
    }
  }

  /** The one way below zero: a funding overdraws its wallet exactly when its net amount is
      negative and exceeds the balance; withdrawals and transfers never do. */
  lemma OverdrawnIff(b: Books, job: Job, fee: int)
    requires NonNegative(b.wallets) && Accepts(b, Moved(job, fee))
    ensures NonNegative(Perform(b, Moved(job, fee)).wallets) <==>
            !(job.Fund? && b.wallets[job.walletId].balance + job.amount - fee < 0)
  {
    var after := Perform(b, Moved(job, fee)).wallets;
    ServedEffect(b, job, fee, job.FirstWallet());
    forall id | id in after
      ensures after[id].balance < 0 <==> job.Fund? && id == job.walletId && b.wallets[id].balance + job.amount - fee < 0
    {
      ServedEffect(b, job, fee, id);
    }
  }

  /** And such a funding is accepted: the request carries no lower bound. */
  lemma NegativeFundingOverdraws()
    ensures var b := Books(map[1 := NewWallet(7, "NGN", 0)], []);
            var job := Fund(7, 1, "NGN", -20000, "t");
            NonNegative(b.wallets) && Accepts(b, Moved(job, -100)) && !NonNegative(Perform(b, Moved(job, -100)).wallets)
  {
    var b := Books(map[1 := NewWallet(7, "NGN", 0)], []);
    var job := Fund(7, 1, "NGN", -20000, "t");
    ServedIff(b, job, -100);
    OverdrawnIff(b, job, -100);
  }

  // ---------------------------------------------------------------- conservation

  function Held(w: Wallet, currency: string): int {
    if w.currency == currency then w.balance else 0
  }

  /** All balances held in one currency. */
  ghost function Total(wallets: map<int, Wallet>, currency: string): int
    decreases |wallets|
  {
    if wallets.Keys == {} then 0
    else var id := Pick(wallets.Keys); Held(wallets[id], currency) + Total(wallets - {id}, currency)
  }

  lemma WithoutBoth(wallets: map<int, Wallet>, a: int, b: int)
    requires a in wallets && b in wallets && a != b
    ensures wallets - {a} - {b} == wallets - {b} - {a}
    ensures |wallets - {a}| < |wallets| && |wallets - {b}| < |wallets|
  {
    assert (wallets - {a}).Keys == wallets.Keys - {a} && (wallets - {b}).Keys == wallets.Keys - {b};
    assert |(wallets - {a}).Keys| < |wallets.Keys| && |(wallets - {b}).Keys| < |wallets.Keys|;
    assert |wallets| == |wallets.Keys| && |wallets - {a}| == |(wallets - {a}).Keys|;
  }

  lemma {:induction false} TotalWithout(wallets: map<int, Wallet>, id: int, currency: string)
    requires id in wallets
    ensures Total(wallets, currency) == Held(wallets[id], currency) + Total(wallets - {id}, currency)
    decreases |wallets|
  {
    var first := Pick(wallets.Keys);
    if first != id {
      hide Held;
      var fewer, others := wallets - {first}, wallets - {id};
      WithoutBoth(wallets, first, id);
      TotalWithout(fewer, id, currency);
      TotalWithout(others, first, currency);
    }
  }

  lemma TotalPut(wallets: map<int, Wallet>, id: int, w: Wallet, currency: string)
    ensures Total(wallets[id := w], currency) ==
            Total(wallets, currency) - (if id in wallets then Held(wallets[id], currency) else 0) + Held(w, currency)
  {
    TotalWithout(wallets[id := w], id, currency);
    assert wallets[id := w] - {id} == wallets - {id};
    if id in wallets { TotalWithout(wallets, id, currency); } else { assert wallets - {id} == wallets; }
  }

  /** What the first k events took in (gross), charged in fees and paid out, in one currency. */
  function Funded(h: seq<Event>, k: nat, currency: string): int
    requires k <= |h|
  {
    if k == 0 then 0
    else Funded(h, k - 1, currency)
         + if h[k - 1].Moved? && h[k - 1].job.Fund? && h[k - 1].job.currency == currency
           then h[k - 1].job.amount else 0
  }

  function Charged(h: seq<Event>, k: nat, currency: string): int
    requires k <= |h|
  {
    if k == 0 then 0
    else Charged(h, k - 1, currency)
         + if h[k - 1].Moved? && h[k - 1].job.currency == currency then h[k - 1].fee else 0
  }

  function Withdrawn(h: seq<Event>, k: nat, currency: string): int
    requires k <= |h|
  {
    if k == 0 then 0
    else Withdrawn(h, k - 1, currency)
         + if h[k - 1].Moved? && h[k - 1].job.Withdraw? && h[k - 1].job.currency == currency
           then h[k - 1].job.amount else 0
  }

  lemma {:induction false} Conserved(start: Books, h: seq<Event>, k: nat, currency: string)
    requires Legal(start, h) && k <= |h|
    ensures Total(At(start, h, k).wallets, currency) + Charged(h, k, currency) + Withdrawn(h, k, currency)
            == Total(start.wallets, currency) + Funded(h, k, currency)
  {
    if k > 0 {
      Conserved(start, h, k - 1, currency);
      var b, e := At(start, h, k - 1), h[k - 1];
      assert AcceptedAt(start, h, k - 1);
      match e
      case Opened(id, userId, c, at) => TotalPut(b.wallets, id, NewWallet(userId, c, at), currency);
      case Logged(_) =>
      case Moved(job, fee) =>
        ServedTotal(b, job, fee, currency);
    }
  }

  lemma ServedTotal(b: Books, job: Job, fee: int, currency: string)
    requires Serve(b, job, fee).Ok?
    ensures Total(Serve(b, job, fee).value.wallets, currency) == Total(b.wallets, currency)
            + if currency != job.currency || job.Transfer? then 0 else FirstDelta(job, fee)
  {
    var after := Serve(b, job, fee).value.wallets;
    ServedEffect(b, job, fee, job.FirstWallet());
    var once := b.wallets[job.FirstWallet() := after[job.FirstWallet()]];
    TotalPut(b.wallets, job.FirstWallet(), after[job.FirstWallet()], currency);
    if job.Transfer? {
      ServedEffect(b, job, fee, job.recipientWalletId);
      TotalPut(once, job.recipientWalletId, after[job.recipientWalletId], currency);
      assert after == once[job.recipientWalletId := after[job.recipientWalletId]];
    } else {
      assert after == once;
    }
  }
}
