/** What the ledger says by itself: its columns add up to what the committed jobs paid out, charged and took
    in, and its transfer rows come in pairs. */
module Ledger {
  import opened Domain
  import opened Books
  import opened History

  // ---------------------------------------------------------------- columns

  /** Three readings of a row: money that left, money charged, and money that came in from outside. */
  datatype Column = PaidOut | Fees | TakenIn

  function Reading(column: Column, row: Row): int {
    match column
    case PaidOut => if row.kind == WITHDRAWAL then row.amount else 0
    case Fees => row.fee
    case TakenIn => if row.kind == DEPOSIT && row.metadata == NoMetadata then row.amount + row.fee else 0
  }

  predicate InCurrency(wallets: map<int, Wallet>, id: int, currency: string) {
    id in wallets && wallets[id].currency == currency
  }

  /** A column added up over the rows of one currency, which is that of the wallet a row names. */
  function Tally(ledger: seq<Row>, wallets: map<int, Wallet>, currency: string, column: Column): int {
    if ledger == [] then 0
    else
      var row := ledger[|ledger| - 1];
      Tally(ledger[..|ledger| - 1], wallets, currency, column)
      + if InCurrency(wallets, row.walletId, currency) then Reading(column, row) else 0
  }

  lemma TallyAppend(ledger: seq<Row>, row: Row, wallets: map<int, Wallet>, currency: string, column: Column)
    ensures Tally(ledger + [row], wallets, currency, column) ==
            Tally(ledger, wallets, currency, column)
            + if InCurrency(wallets, row.walletId, currency) then Reading(column, row) else 0
  {
    assert (ledger + [row])[..|ledger|] == ledger;
  }

  /** The wallets the rows name are in the currency in both tables, or in neither. */
  predicate SameCurrencies(ledger: seq<Row>, wallets: map<int, Wallet>, later: map<int, Wallet>, currency: string) {
    forall r :: 0 <= r < |ledger| ==>
      (InCurrency(wallets, ledger[r].walletId, currency) <==> InCurrency(later, ledger[r].walletId, currency))
  }

  /** The tally depends only on the currencies of the wallets the rows name. */
  lemma {:induction false} TallyFrame(ledger: seq<Row>, wallets: map<int, Wallet>, later: map<int, Wallet>,
                                      currency: string, column: Column)
    requires SameCurrencies(ledger, wallets, later, currency)
    ensures Tally(ledger, wallets, currency, column) == Tally(ledger, later, currency, column)
  {
    if ledger != [] {
      TallyFrame(ledger[..|ledger| - 1], wallets, later, currency, column);
    }
  }

  /** What one committed job adds to a column. */
  function Contribution(e: Event, currency: string, column: Column): int {
    if !e.Moved? || e.job.currency != currency then 0
    else
      match column
      case PaidOut => if e.job.Withdraw? then e.job.amount else 0
      case Fees => e.fee
      case TakenIn => if e.job.Fund? then e.job.amount else 0
  }

  lemma JobTally(ledger: seq<Row>, job: Job, fee: int, wallets: map<int, Wallet>, currency: string, column: Column)
    requires WalletsFit(wallets, job) && Chargeable(job, fee)
    ensures Tally(ledger + RowsOf(job, fee), wallets, currency, column) ==
            Tally(ledger, wallets, currency, column) + Contribution(Moved(job, fee), currency, column)
  {
    hide Tally;
    var rows := RowsOf(job, fee);
    TallyAppend(ledger, rows[0], wallets, currency, column);
    if job.Transfer? {
      TallyAppend(ledger + [rows[0]], rows[1], wallets, currency, column);
      assert ledger + rows == (ledger + [rows[0]]) + [rows[1]];
    } else {
      assert rows == [rows[0]];
    }
  }

  /** What the first k events add to a column, in one currency. */
  function Booked(h: seq<Event>, k: nat, currency: string, column: Column): int
    requires k <= |h|
  {
    match column
    case PaidOut => Withdrawn(h, k, currency)
    case Fees => Charged(h, k, currency)
    case TakenIn => Funded(h, k, currency)
  }

  lemma BookedGrows(h: seq<Event>, k: nat, currency: string, column: Column)
    requires k < |h|
    ensures Booked(h, k + 1, currency, column) == Booked(h, k, currency, column) + Contribution(h[k], currency, column)
    ensures Booked(h, 0, currency, column) == 0
  {
  }

  /** The wallets a ledger names have the same currency one event later. */
  lemma CurrenciesStay(start: Books, h: seq<Event>, k: nat, currency: string)
    requires Legal(start, h) && k < |h| && start.ledger == []
    ensures var b, after := At(start, h, k), At(start, h, k + 1).wallets;
            SameCurrencies(b.ledger, b.wallets, after, currency)
  {
    var b, after := At(start, h, k), At(start, h, k + 1).wallets;
    hide Legal, At;
    forall r | 0 <= r < |b.ledger|
      ensures InCurrency(b.wallets, b.ledger[r].walletId, currency) <==>
                InCurrency(after, b.ledger[r].walletId, currency)
    {
      RowsAreOwned(start, h, k, r);
      VersionDeterminesRow(start, h, k, k + 1, b.ledger[r].walletId);
    }
  }

  /** The columns of the ledger add up: the WITHDRAWAL amounts to what was withdrawn, the fees to what was
      charged, and the deposits from outside with their fees to what was funded, currency by currency. */
  lemma {:induction false} ColumnsAddUp(start: Books, h: seq<Event>, k: nat, currency: string, column: Column)
    requires Legal(start, h) && k <= |h| && start.ledger == []
    ensures Tally(At(start, h, k).ledger, At(start, h, k).wallets, currency, column) == Booked(h, k, currency, column)
  {
    if k == 0 {
      BookedNone(h, currency, column);
    } else {
      ColumnsAddUp(start, h, k - 1, currency, column);
      BookedGrows(h, k - 1, currency, column);
      EventTally(start, h, k - 1, currency, column);
      hide Tally, Legal, Booked, At, Contribution;
    }
  }

  lemma EventTally(start: Books, h: seq<Event>, k: nat, currency: string, column: Column)
    requires Legal(start, h) && k < |h| && start.ledger == []
    ensures var b, after := At(start, h, k), At(start, h, k + 1);
            Tally(after.ledger, after.wallets, currency, column) ==
            Tally(b.ledger, b.wallets, currency, column) + Contribution(h[k], currency, column)
  {
    hide At, Tally, Legal, SameCurrencies;
    var b, e, after := At(start, h, k), h[k], At(start, h, k + 1);
    CurrenciesStay(start, h, k, currency);
    TallyFrame(b.ledger, b.wallets, after.wallets, currency, column);
    NextBooks(start, h, k);
    if e.Moved? {
      ServedIff(b, e.job, e.fee);
      ServedEffect(b, e.job, e.fee, 0);
      FitsLater(start, h, k);
      hide Serve, RowsOf;
      JobTally(b.ledger, e.job, e.fee, after.wallets, currency, column);
    }
  }

  lemma NextBooks(start: Books, h: seq<Event>, k: nat)
    requires Legal(start, h) && k < |h|
    ensures Accepts(At(start, h, k), h[k]) && At(start, h, k + 1) == Perform(At(start, h, k), h[k])
  {
    assert AcceptedAt(start, h, k);
    hide Perform, Accepts;
  }

  lemma BookedNone(h: seq<Event>, currency: string, column: Column)
    ensures Booked(h, 0, currency, column) == 0
  {
  }

  lemma FitsLater(start: Books, h: seq<Event>, k: nat)
    requires Legal(start, h) && k < |h| && h[k].Moved?
    ensures WalletsFit(At(start, h, k + 1).wallets, h[k].job)
  {
    MovedWalletsAreOwned(start, h, k, k + 1);
    hide At, Legal;
  }

  // ---------------------------------------------------------------- pairs

  /** The two rows of transfer txId: each names the other's wallet, and they carry the same amount. */
  predicate Pair(debit: Row, credit: Row, txId: string) {
    && debit.kind == TRANSFER && credit.kind == DEPOSIT
    && debit.reference == txId + "-sender" && credit.reference == txId + "-recipient"
    && debit.metadata == To(credit.walletId) && credit.metadata == From(debit.walletId)
    && debit.amount == credit.amount && debit.fee == credit.fee == 0
    && debit.walletId != credit.walletId
  }

  ghost predicate Partners(debit: Row, credit: Row) {
    exists txId :: Pair(debit, credit, txId)
  }

  /** A transfer debits with a TRANSFER row that says where to and credits with a DEPOSIT row that says where
      from; a withdrawal says neither; only a deposit from outside carries a fee. */
  predicate WellFormed(row: Row) {
    match row.kind
    case TRANSFER => row.metadata.To? && row.fee == 0
    case WITHDRAWAL => row.metadata == NoMetadata && row.fee == 0
    case DEPOSIT => !row.metadata.To? && (row.metadata.From? ==> row.fee == 0)
  }

  /** A row of a transfer stands beside its partner. */
  ghost predicate Paired(ledger: seq<Row>, r: nat)
    requires r < |ledger|
  {
    && WellFormed(ledger[r])
    && (ledger[r].kind == TRANSFER ==>
          r + 1 < |ledger| && Partners(ledger[r], ledger[r + 1]))
    && (ledger[r].metadata.From? ==>
          0 < r && Partners(ledger[r - 1], ledger[r]))
  }

  lemma NewRowsPaired(ledger: seq<Row>, job: Job, fee: int, r: nat)
    requires Chargeable(job, fee) && TwoWallets(job)
    requires |ledger| <= r < |ledger| + |RowsOf(job, fee)|
    ensures Paired(ledger + RowsOf(job, fee), r)
  {
    var rows := RowsOf(job, fee);
    var longer := ledger + rows;
    assert longer[|ledger|] == rows[0];
    if job.Transfer? {
      assert longer[|ledger| + 1] == rows[1];
      assert Pair(rows[0], rows[1], job.txId);
    }
  }

  lemma StillPaired(ledger: seq<Row>, rows: seq<Row>, r: nat)
    requires r < |ledger| && Paired(ledger, r)
    ensures Paired(ledger + rows, r)
  {
    var longer := ledger + rows;
    assert longer[r] == ledger[r];
    assert r + 1 < |ledger| ==> longer[r + 1] == ledger[r + 1];
    assert r > 0 ==> longer[r - 1] == ledger[r - 1];
  }

  lemma {:induction false} AllPaired(start: Books, h: seq<Event>, k: nat, r: nat)
    requires Legal(start, h) && k <= |h| && start.ledger == [] && r < |At(start, h, k).ledger|
    ensures Paired(At(start, h, k).ledger, r)
  {
    if k > 0 {
      var b, e := At(start, h, k - 1), h[k - 1];
      assert AcceptedAt(start, h, k - 1);
      if r < |b.ledger| { AllPaired(start, h, k - 1, r); }
      hide Legal, Paired;
      if e.Moved? {
        ServedIff(b, e.job, e.fee);
        ServedEffect(b, e.job, e.fee, 0);
        hide Serve, RowsOf;
        if r < |b.ledger| {
          StillPaired(b.ledger, RowsOf(e.job, e.fee), r);
        } else {
          NewRowsPaired(b.ledger, e.job, e.fee, r);
        }
      }
    }
  }

  /** Every debit of a transfer has exactly one credit in the ledger, of the wallet it names and the same
      amount, and is named by it; a row without metadata is no part of a transfer. */
  lemma DebitHasItsCredit(start: Books, h: seq<Event>, k: nat, r: nat) returns (credit: nat, txId: string)
    requires Legal(start, h) && k <= |h| && start.ledger == [] && r < |At(start, h, k).ledger|
    requires At(start, h, k).ledger[r].kind == TRANSFER
    ensures var ledger := At(start, h, k).ledger;
            && credit < |ledger| && Pair(ledger[r], ledger[credit], txId)
            && forall c :: 0 <= c < |ledger| && Partners(ledger[r], ledger[c]) ==> c == credit
  {
    var ledger := At(start, h, k).ledger;
    AllPaired(start, h, k, r);
    LedgerIsPosted(start, h, k);
    credit := r + 1;
    txId :| Pair(ledger[r], ledger[credit], txId);
    hide At, Legal;
    forall c | 0 <= c < |ledger| && Partners(ledger[r], ledger[c]) ensures c == credit {
      var t :| Pair(ledger[r], ledger[c], t);
      SameTransfer(txId, t);
      SameReference(ledger, c, credit);
    }
  }

  /** And every such credit has exactly one debit. */
  lemma CreditHasItsDebit(start: Books, h: seq<Event>, k: nat, r: nat) returns (debit: nat, txId: string)
    requires Legal(start, h) && k <= |h| && start.ledger == [] && r < |At(start, h, k).ledger|
    requires At(start, h, k).ledger[r].metadata.From?
    ensures var ledger := At(start, h, k).ledger;
            && debit < |ledger| && Pair(ledger[debit], ledger[r], txId)
            && forall d :: 0 <= d < |ledger| && Partners(ledger[d], ledger[r]) ==> d == debit
  {
    var ledger := At(start, h, k).ledger;
    AllPaired(start, h, k, r);
    LedgerIsPosted(start, h, k);
    debit := r - 1;
    txId :| Pair(ledger[debit], ledger[r], txId);
    hide At, Legal;
    forall d | 0 <= d < |ledger| && Partners(ledger[d], ledger[r]) ensures d == debit {
      var t :| Pair(ledger[d], ledger[r], t);
      SameTransfer(txId, t);
      SameReference(ledger, d, debit);
    }
  }

  lemma SameTransfer(x: string, y: string)
    requires x + "-sender" == y + "-sender" || x + "-recipient" == y + "-recipient"
    ensures x == y
  {
    ReferencesApart(x, y);
  }

  lemma SameReference(ledger: seq<Row>, i: nat, j: nat)
    requires DistinctReferences(ledger) && i < |ledger| && j < |ledger| && ledger[i].reference == ledger[j].reference
    ensures i == j
  {
  }
}
