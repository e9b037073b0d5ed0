/** What every run guarantees, faults and crashes included. */
module Guarantees {
  import opened Domain
  import opened Books
  import opened History
  import opened Retry
  import opened Machine
  import opened AllRuns
  import opened Ledger
  import Fees

  // ---------------------------------------------------------------- serialisability

  /** A step appends at most one event, and changes the books exactly as that event says. */
  lemma StepAppendsOneEvent(s: State, a: Action)
    requires Inv(s) && Enabled(s, a)
    ensures var sh, sh' := s.shared, Apply(s, a).shared;
            && sh'.start == sh.start
            && ((sh'.history == sh.history && sh'.books == sh.books)
                || (|sh'.history| == |sh.history| + 1 && sh.history <= sh'.history
                    && sh'.books == Perform(sh.books, sh'.history[|sh.history|])))
  {
    ApplyKeepsInv(s, a);
    var sh, sh' := s.shared, Apply(s, a).shared;
    HistoryGrowsByOne(s, a);
    if sh'.history != sh.history {
      AtPrefix(sh.Origin(), sh.history, sh'.history, |sh.history|);
    }
  }

  /** Books and history move together, one event at a time. */
  predicate OneMore(sh: Shared, sh': Shared) {
    && sh'.start == sh.start
    && sh.history <= sh'.history && |sh'.history| <= |sh.history| + 1
    && (sh'.history == sh.history ==> sh'.books == sh.books)
  }

  lemma AdvanceOneMore(sh: Shared, w: Worker, snap: nat, fee: int)
    requires Choosable(sh, w, snap, fee)
    ensures OneMore(sh, Advance(sh, w, snap, fee).0)
  {
    if InTransaction(w.pc) {
      hide At, Vet, Insertable, GuardedBy, RowsOf, Find, SecondRead;
    } else {
      hide Owned, Find, AdvanceTransaction;
    }
  }

  lemma RespondOneMore(sh: Shared, c: Client, newId: int, at: int)
    requires CanRespond(sh, c, newId)
    ensures OneMore(sh, Respond(sh, c, newId, at).0)
  {
    hide Vacant, LiveWalletExists, Screened, Refused;
  }

  lemma HistoryGrowsByOne(s: State, a: Action)
    requires Enabled(s, a)
    ensures OneMore(s.shared, Apply(s, a).shared)
  {
    if a.Step? || a.Fault? { AdvanceOneMore(s.shared, s.workers[a.wid], a.snap, a.fee); }
    if a.Proceed? { RespondOneMore(s.shared, s.clients[a.cid], a.newId, a.at); }
    CacheChangeOnly(s.shared, Apply(s, a).shared.cache);
    hide Advance, Respond, Throw, Fail, InFlight, Unlocked, OneMore, AfterThrow, Choosable, CanRespond;
  }

  lemma CacheChangeOnly(sh: Shared, cache: map<string, Status>)
    ensures OneMore(sh, sh) && OneMore(sh, sh.(cache := cache))
  {
  }

  lemma {:induction false} HistoryGrows(run: seq<State>, i: nat, j: nat)
    requires Run(run) && i <= j < |run|
    ensures run[j].shared.start == run[i].shared.start
    ensures run[i].shared.history <= run[j].shared.history
  {
    hide Enabled, Apply;
    if i < j {
      HistoryGrows(run, i, j - 1);
      assert Next(run[j - 1], run[j]);
      var a :| Enabled(run[j - 1], a) && run[j] == Apply(run[j - 1], a);
      HistoryGrowsByOne(run[j - 1], a);
    }
  }

  /** Serialisability: the wallets and ledger are what the committed events produce one at a time in
      commit order, each passing its own checks there; and the books at any earlier moment of the
      run are an intermediate state of that serial run. */
  lemma Serialisable(run: seq<State>, i: nat, j: nat)
    requires Run(run) && i <= j < |run|
    ensures var origin, h := run[j].shared.Origin(), run[j].shared.history;
            && run[j].shared.books == At(origin, h, |h|)
            && |run[i].shared.history| <= |h|
            && run[i].shared.books == At(origin, h, |run[i].shared.history|)
            && forall k :: 0 <= k < |h| && h[k].Moved? ==>
                 && Admissible(h[k].job) && Chargeable(h[k].job, h[k].fee)
                 && Serve(At(origin, h, k), h[k].job, h[k].fee) == Ok(At(origin, h, k + 1))
  {
    EveryRunIsSound(run, i);
    EveryRunIsSound(run, j);
    HistoryGrows(run, i, j);
    var origin, h := run[j].shared.Origin(), run[j].shared.history;
    AtPrefix(origin, run[i].shared.history, h, |run[i].shared.history|);
    forall k | 0 <= k < |h| && h[k].Moved?
      ensures Admissible(h[k].job) && Chargeable(h[k].job, h[k].fee)
      ensures Serve(At(origin, h, k), h[k].job, h[k].fee) == Ok(At(origin, h, k + 1))
    {
      assert AcceptedAt(origin, h, k);
    }
  }

  // ---------------------------------------------------------------- at most once

  predicate FoundAt(ledger: seq<Row>, from: int, rows: seq<Row>) {
    0 <= from && from + |rows| <= |ledger| && ledger[from..from + |rows|] == rows
  }

  /** The rows of event k sit together in the ledger. */
  lemma {:induction false} RowsArePosted(h: seq<Event>, n: nat, k: nat)
    requires k < n <= |h| && h[k].Moved?
    ensures FoundAt(Posted(h, n), |Posted(h, k)|, RowsOf(h[k].job, h[k].fee))
  {
    hide RowsOf;
    if k < n - 1 { RowsArePosted(h, n - 1, k); }
  }

  predicate WrittenByJob(h: seq<Event>, row: Row) {
    exists k :: 0 <= k < |h| && h[k].Moved? && row in RowsOf(h[k].job, h[k].fee)
  }

  /** Every ledger row was written by a committed job. */
  lemma {:induction false} RowHasItsJob(h: seq<Event>, n: nat, r: nat) returns (k: nat)
    requires n <= |h| && r < |Posted(h, n)|
    ensures k < n && h[k].Moved? && Posted(h, n)[r] in RowsOf(h[k].job, h[k].fee)
  {
    hide RowsOf;
    if r < |Posted(h, n - 1)| { k := RowHasItsJob(h, n - 1, r); } else { k := n - 1; }
  }

  /** Each txId moves money at most once, whatever the job kind; the movement leaves its one row
      (funding, withdrawal) or its pair (transfer) in the ledger, no reference occurs twice, and
      there are no other rows. */
  lemma AtMostOnce(run: seq<State>, i: nat)
    requires Run(run) && i < |run|
    ensures var h, ledger := run[i].shared.history, run[i].shared.books.ledger;
            && (forall j, k :: 0 <= j < k < |h| && h[j].Moved? && h[k].Moved? ==> h[j].job.txId != h[k].job.txId)
            && DistinctReferences(ledger)
            && (forall k :: 0 <= k < |h| && h[k].Moved? ==>
                  exists from :: FoundAt(ledger, from, RowsOf(h[k].job, h[k].fee)))
            && (forall r :: 0 <= r < |ledger| ==> WrittenByJob(h, ledger[r]))
  {
    EveryRunIsSound(run, i);
    var sh := run[i].shared;
    var h, ledger := sh.history, sh.books.ledger;
    LedgerIsPosted(sh.Origin(), h, |h|);
    hide RowsOf, Legal, Run, WorkerOk;
    forall j, k | 0 <= j < k < |h| && h[j].Moved? && h[k].Moved? ensures h[j].job.txId != h[k].job.txId {
      assert Spends(h[j], h[j].job.txId);
      assert !Spends(h[k], h[j].job.txId);
    }
    forall k | 0 <= k < |h| && h[k].Moved?
      ensures exists from :: FoundAt(ledger, from, RowsOf(h[k].job, h[k].fee))
    {
      RowsArePosted(h, |h|, k);
    }
    forall r | 0 <= r < |ledger| ensures WrittenByJob(h, ledger[r]) {
      var k := RowHasItsJob(h, |h|, r);
    }
  }

  /** Once a funding or withdrawal has claimed a reference of transfer txId, no later state of the run lets
      that transfer through. */
  lemma ClaimedForGood(run: seq<State>, i: nat, j: nat, k: nat, transfer: Job)
    requires Run(run) && i <= j < |run| && k < |run[i].shared.history| && transfer.Transfer?
    requires var e := run[i].shared.history[k]; e.Moved? && !e.job.Transfer? && Claims(e, transfer.txId)
    ensures Serve(run[j].shared.books, transfer, 0).Err?
    ensures var h := run[j].shared.history;
            forall n :: 0 <= n < |h| && h[n].Moved? && h[n].job.Transfer? ==> h[n].job.txId != transfer.txId
  {
    EveryRunIsSound(run, j);
    HistoryGrows(run, i, j);
    ForeignReferenceBlocks(run[j].shared.Origin(), run[j].shared.history, k, |run[j].shared.history|, transfer);
  }

  // ---------------------------------------------------------------- the three views agree

  /** Balance and version of every wallet, from its starting row and its ledger rows. */
  lemma LedgerReconciles(run: seq<State>, i: nat, id: int)
    requires Run(run) && i < |run| && id in run[i].shared.books.wallets
    ensures var b, origin := run[i].shared.books, run[i].shared.Origin();
            && b.wallets[id].balance == StartBalance(origin, id) + Net(b.ledger, id)
            && b.wallets[id].version == StartVersion(origin, id) + Entries(b.ledger, id)
  {
    EveryRunIsSound(run, i);
    var sh := run[i].shared;
    Reconciled(sh.Origin(), sh.history, |sh.history|, id);
  }

  /** The columns of the ledger, read without the jobs, add up to what was withdrawn, charged and taken in. */
  lemma LedgerColumnsAddUp(run: seq<State>, i: nat, currency: string)
    requires Run(run) && i < |run|
    ensures var sh := run[i].shared;
            var ledger, wallets, n := sh.books.ledger, sh.books.wallets, |sh.history|;
            && Tally(ledger, wallets, currency, PaidOut) == Withdrawn(sh.history, n, currency)
            && Tally(ledger, wallets, currency, Column.Fees) == Charged(sh.history, n, currency)
            && Tally(ledger, wallets, currency, TakenIn) == Funded(sh.history, n, currency)
  {
    EveryRunIsSound(run, i);
    var sh := run[i].shared;
    ColumnsAddUp(sh.Origin(), sh.history, |sh.history|, currency, PaidOut);
    ColumnsAddUp(sh.Origin(), sh.history, |sh.history|, currency, Column.Fees);
    ColumnsAddUp(sh.Origin(), sh.history, |sh.history|, currency, TakenIn);
  }

  /** Every row is of one of the four forms the handlers write, and the two rows of a transfer always stand side
      by side, each naming the other's wallet. */
  lemma LedgerRowsPair(run: seq<State>, i: nat, r: nat)
    requires Run(run) && i < |run| && r < |run[i].shared.books.ledger|
    ensures Paired(run[i].shared.books.ledger, r)
  {
    EveryRunIsSound(run, i);
    var sh := run[i].shared;
    AllPaired(sh.Origin(), sh.history, |sh.history|, r);
  }

  /** In every run a debit of a transfer has exactly one credit, and a credit exactly one debit. */
  lemma PartnersAreUnique(run: seq<State>, i: nat, r: nat) returns (partner: nat)
    requires Run(run) && i < |run| && r < |run[i].shared.books.ledger|
    requires var row := run[i].shared.books.ledger[r]; row.kind == TRANSFER || row.metadata.From?
    ensures var ledger := run[i].shared.books.ledger;
            && partner < |ledger|
            && (ledger[r].kind == TRANSFER ==>
                  && Partners(ledger[r], ledger[partner])
                  && forall c :: 0 <= c < |ledger| && Partners(ledger[r], ledger[c]) ==> c == partner)
            && (ledger[r].metadata.From? ==>
                  && Partners(ledger[partner], ledger[r])
                  && forall d :: 0 <= d < |ledger| && Partners(ledger[d], ledger[r]) ==> d == partner)
  {
    EveryRunIsSound(run, i);
    LedgerRowsPair(run, i, r);
    var sh, txId := run[i].shared, "";
    hide Run, Legal, At, Inv;
    SoundBooks(run[i]);
    if sh.books.ledger[r].kind == TRANSFER {
      partner, txId := DebitHasItsCredit(sh.Origin(), sh.history, |sh.history|, r);
    } else {
      partner, txId := CreditHasItsDebit(sh.Origin(), sh.history, |sh.history|, r);
    }
  }

  lemma SoundBooks(s: State)
    requires Inv(s)
    ensures Legal(s.shared.Origin(), s.shared.history)
    ensures s.shared.books == At(s.shared.Origin(), s.shared.history, |s.shared.history|)
  {
  }

  /** What was ever committed was admissible and rightly charged: a withdrawal or transfer moved at least a
      cent and paid no fee, a funding paid a whole number of cents nearest to half a percent. */
  lemma CommittedJobsAreProper(run: seq<State>, i: nat, k: nat)
    requires Run(run) && i < |run| && k < |run[i].shared.history| && run[i].shared.history[k].Moved?
    ensures var job, fee := run[i].shared.history[k].job, run[i].shared.history[k].fee;
            if job.Fund? then Fees.NearestCent(job.amount, fee) else job.amount >= 100 && fee == 0
  {
    EveryRunIsSound(run, i);
    var sh := run[i].shared;
    assert AcceptedAt(sh.Origin(), sh.history, k);
    Fees.NearestCentIsFee(sh.history[k].job.amount, sh.history[k].fee);
  }

  /** Money of a currency is neither made nor lost. */
  lemma MoneyIsConserved(run: seq<State>, i: nat, currency: string)
    requires Run(run) && i < |run|
    ensures var sh := run[i].shared; var n := |sh.history|;
            Total(sh.books.wallets, currency) + Charged(sh.history, n, currency) + Withdrawn(sh.history, n, currency)
            == Total(sh.start, currency) + Funded(sh.history, n, currency)
  {
    EveryRunIsSound(run, i);
    var sh := run[i].shared;
    Conserved(sh.Origin(), sh.history, |sh.history|, currency);
  }

  /** No interleaving overdraws a wallet, if none starts negative and every committed funding asked
      for a non-negative amount. */
  lemma NoOverdraft(run: seq<State>, i: nat)
    requires Run(run) && i < |run| && NonNegative(run[i].shared.start)
    requires var h := run[i].shared.history;
             forall k :: 0 <= k < |h| && h[k].Moved? && h[k].job.Fund? ==> h[k].job.amount >= 0
    ensures NonNegative(run[i].shared.books.wallets)
  {
    EveryRunIsSound(run, i);
    var sh := run[i].shared;
    NeverOverdrawn(sh.Origin(), sh.history, |sh.history|);
  }

  /** Every ledger row carries the owner of the wallet it names, and every committed job names wallets
      of its own users in its own currency. */
  lemma LedgerIsOwned(run: seq<State>, i: nat)
    requires Run(run) && i < |run|
    ensures var b := run[i].shared.books;
            forall r :: 0 <= r < |b.ledger| ==>
              b.ledger[r].walletId in b.wallets && b.wallets[b.ledger[r].walletId].userId == b.ledger[r].userId
    ensures var w, h := run[i].shared.books.wallets, run[i].shared.history;
            forall k :: 0 <= k < |h| && h[k].Moved? ==> NamesItsOwn(w, h[k].job)
  {
    EveryRunIsSound(run, i);
    var sh := run[i].shared;
    forall r | 0 <= r < |sh.books.ledger|
      ensures sh.books.ledger[r].walletId in sh.books.wallets
              && sh.books.wallets[sh.books.ledger[r].walletId].userId == sh.books.ledger[r].userId
    {
      RowsAreOwned(sh.Origin(), sh.history, |sh.history|, r);
    }
    forall k | 0 <= k < |sh.history| && sh.history[k].Moved? ensures NamesItsOwn(sh.books.wallets, sh.history[k].job) {
      MovedWalletsAreOwned(sh.Origin(), sh.history, k, |sh.history|);
    }
  }

  /** Committed transfers join two different wallets of two different users. */
  lemma TransfersCrossUsers(run: seq<State>, i: nat, k: nat)
    requires Run(run) && i < |run| && k < |run[i].shared.history|
    requires run[i].shared.history[k].Moved? && run[i].shared.history[k].job.Transfer?
    ensures var job := run[i].shared.history[k].job;
            job.senderWalletId != job.recipientWalletId && job.senderId != job.recipientId
  {
    EveryRunIsSound(run, i);
    TransfersJoinTwoUsers(run[i].shared.Origin(), run[i].shared.history, k);
  }

  // ---------------------------------------------------------------- tickets

  /** A pending ticket has no committed effect; a success ticket has one, or createWallet wrote it;
      a txId without a ticket has none. */
  lemma TicketsTellTheTruth(run: seq<State>, i: nat, txId: string)
    requires Run(run) && i < |run|
    ensures var sh := run[i].shared;
            && (txId !in sh.tickets || sh.tickets[txId].status == Pending ==> !Spent(sh.history, txId))
            && (txId in sh.tickets && sh.tickets[txId].status == Success ==> Spent(sh.history, txId))
  {
    EveryRunIsSound(run, i);
  }

  // ---------------------------------------------------------------- first committer wins

  predicate TouchedSince(h: seq<Event>, from: nat, id: int)
    requires from <= |h|
  {
    exists k :: from <= k < |h| && Touches(h[k], id)
  }

  /** A committed job that names a wallet moves its version on for good. */
  lemma TouchMoves(sh: Shared, from: nat, id: int, k: nat)
    requires SharedOk(sh) && from <= k < |sh.history| && id in sh.Snapshot(from) && Touches(sh.history[k], id)
    ensures id in sh.books.wallets && sh.books.wallets[id].version > sh.Snapshot(from)[id].version
  {
    var h, origin := sh.history, sh.Origin();
    VersionDeterminesRow(origin, h, from, k, id);
    VersionDeterminesRow(origin, h, k, |h|, id);
    assert AcceptedAt(origin, h, k);
    ServedEffect(At(origin, h, k), h[k].job, h[k].fee, id);
    hide Serve, Legal, TicketsOk, SpentOnce, OneWalletPerCurrency;
    VersionDeterminesRow(origin, h, k + 1, |h|, id);
  }

  /** Between a read and now, the wallet's version moved exactly when a committed job named it. */
  lemma StaleIff(sh: Shared, from: nat, id: int)
    requires SharedOk(sh) && from <= |sh.history| && id in sh.Snapshot(from)
    ensures id in sh.books.wallets
    ensures sh.books.wallets[id].version != sh.Snapshot(from)[id].version <==> TouchedSince(sh.history, from, id)
  {
    hide Touches;
    var h, origin := sh.history, sh.Origin();
    VersionDeterminesRow(origin, h, from, |h|, id);
    if sh.books.wallets[id].version != sh.Snapshot(from)[id].version {
      var k := StaleVersionHasWitness(origin, h, from, |h|, id);
    }
    if TouchedSince(h, from, id) {
      var k :| from <= k < |h| && Touches(h[k], id);
      TouchMoves(sh, from, id, k);
    }
  }

  /** First committer wins: a guarded update is rejected exactly when some other job committed on that
      wallet between this job's read and this write. */
  lemma FirstCommitterWins(run: seq<State>, i: nat, wid: int, snap: nat, fee: int)
    requires Run(run) && i < |run| && Enabled(run[i], Step(wid, snap, fee))
    requires var w := run[i].workers[wid];
             w.pc.UpdateFirst?
             || (w.pc.UpdateSecond? && w.job.Transfer? && w.job.senderWalletId != w.job.recipientWalletId)
    ensures var w, h := run[i].workers[wid], run[i].shared.history;
            var id, readAt := if w.pc.UpdateFirst? then w.job.FirstWallet() else w.job.recipientWalletId,
                              if w.pc.UpdateFirst? then w.firstAt else w.secondAt;
            && w.began <= readAt <= |h|
            && (Advance(run[i].shared, w, snap, fee).1.pc.MarkFailed? <==> TouchedSince(h, readAt, id))
            && forall k :: readAt <= k < |h| && Touches(h[k], id) ==> h[k].job.txId != w.job.txId
  {
    EveryRunIsSound(run, i);
    var sh, w := run[i].shared, run[i].workers[wid];
    assert WorkerOk(sh, w);
    var id := if w.pc.UpdateFirst? then w.job.FirstWallet() else w.job.recipientWalletId;
    var readAt := if w.pc.UpdateFirst? then w.firstAt else w.secondAt;
    StaleIff(sh, readAt, id);
    forall k | readAt <= k < |sh.history| && Touches(sh.history[k], id) ensures sh.history[k].job.txId != w.job.txId {
      assert Spends(sh.history[k], sh.history[k].job.txId);
    }
  }

  /** A same-wallet transfer is always rejected at its second update. */
  lemma SameWalletAlwaysRejected(run: seq<State>, i: nat, wid: int, snap: nat, fee: int)
    requires Run(run) && i < |run| && Enabled(run[i], Step(wid, snap, fee))
    requires var w := run[i].workers[wid];
             w.pc.UpdateSecond? && w.job.Transfer? && w.job.senderWalletId == w.job.recipientWalletId
    ensures Advance(run[i].shared, run[i].workers[wid], snap, fee).1.pc.MarkFailed?
  {
    EveryRunIsSound(run, i);
    var sh, w := run[i].shared, run[i].workers[wid];
    assert WorkerOk(sh, w);
    if GuardedBy(w.View(sh), w.job.recipientWalletId, w.second, w.job.amount).Some? {
      SecondGuardMeansUnchanged(sh, w);
    }
  }
}
