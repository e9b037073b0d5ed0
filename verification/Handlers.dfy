/** What one delivery, or one API call, does when it runs alone: the specification of the service
    methods, over the tables and the cache. */
module Handlers {
  import opened Domain
  import opened Books
  import opened History
  import opened Machine

  /** A wallet as a client sees it in a list. */
  datatype Listed = Listed(id: int, wallet: Wallet)

  /** The three tables, the wallet_request:<txId> entries and the user_wallets:<userId> entries. */
  datatype World = World(
    books: Books, tickets: map<string, Ticket>,
    requests: map<string, Status>, lists: map<int, seq<Listed>>)

  /** Which awaits fail in this run of a handler. The list deletions of one await go out together, so
      some take effect although the await fails: `dropped` says for which users. */
  datatype Failures = Failures(at: Pc -> bool, dropped: set<int>)

  /** In a no-fault run only the transaction may abort. */
  ghost predicate Benign(fails: Failures) {
    forall pc :: fails.at(pc) ==> InTransaction(pc)
  }

  // ---------------------------------------------------------------- deliveries

  datatype Admission = Skip | Enter | Raise

  /** Idempotency check and pre-log, common to the three handlers. */
  function Admitted(w: World, job: Job, fails: Failures): (World, Admission) {
    var t := job.txId;
    if fails.at(Lookup) then (w, Raise)
    else if t in w.requests && Terminal(w.requests[t]) then (w, Skip)
    else if t in w.requests && fails.at(DropStale) then (w, Raise)
    else
      var w1 := w.(requests := w.requests - {t});
      if fails.at(PreLog) then (w1, Raise)
      else if t in w1.tickets then (w1, Skip)
      else (w1.(tickets := w1.tickets[t := Ticket(job.Requester(), job.currency, Pending)]), Enter)
  }

  /** Some await between the pre-log and the commit fails. */
  predicate TransactionFails(job: Job, fails: Failures) {
    || (job.Fund? && fails.at(Validate))
    || fails.at(Begin) || fails.at(ReadFirst) || (job.Transfer? && fails.at(ReadSecond))
    || fails.at(UpdateFirst) || (job.Transfer? && fails.at(UpdateSecond))
    || fails.at(WriteTicket) || fails.at(WriteLedger) || fails.at(Commit)
  }

  function MarkTicket(tickets: map<string, Ticket>, txId: string, status: Status): map<string, Ticket> {
    if txId in tickets then tickets[txId := tickets[txId].(status := status)] else tickets
  }

  /** The catch block; the withdrawal handler keeps the error to itself. */
  function Caught(w: World, job: Job, fails: Failures): (World, Outcome) {
    if fails.at(MarkFailed) then (w, Threw)
    else
      var w1 := w.(tickets := MarkTicket(w.tickets, job.txId, Failed));
      if fails.at(CacheFailed) then (w1, Threw)
      else (w1.(requests := w1.requests[job.txId := Failed]), if job.Withdraw? then Returned else Threw)
  }

  /** The wallet lists a handler invalidates; funding leaves its user's list in place. */
  function StaleLists(job: Job): set<int> {
    match job
    case Fund(_, _, _, _, _) => {}
    case Withdraw(userId, _, _, _, _) => {userId}
    case Transfer(senderId, _, recipientId, _, _, _, _) => {senderId, recipientId}
  }

  /** From the committed transaction to the end of the handler. */
  function Wound(w: World, job: Job, fails: Failures): (World, Outcome) {
    if fails.at(CacheSuccess) then Caught(w, job, fails)
    else
      var w1 := w.(requests := w.requests[job.txId := Success]);
      if !job.Fund? && fails.at(DropLists)
      then Caught(w1.(lists := w1.lists - StaleLists(job) * fails.dropped), job, fails)
      else
        var w2 := w1.(lists := w1.lists - StaleLists(job));
        if fails.at(Notify) then Caught(w2, job, fails) else (w2, Returned)
  }

  /** After the pre-log: all of the job or nothing of it, then the rest of the handler. */
  function Executed(w: World, job: Job, fee: int, fails: Failures): (World, Outcome) {
    var served := Serve(w.books, job, fee);
    if TransactionFails(job, fails) || served.Err? then Caught(w, job, fails)
    else Wound(w.(books := served.value, tickets := MarkTicket(w.tickets, job.txId, Success)), job, fails)
  }

  function Handled(w: World, job: Job, fee: int, fails: Failures): (World, Outcome) {
    var (w1, admission) := Admitted(w, job, fails);
    match admission
    case Skip => (w1, Returned)
    case Raise => Caught(w1, job, fails)
    case Enter => Executed(w1, job, fee, fails)
  }

  /** The delivery gets past its idempotency check, and its pre-log does not fail. */
  predicate PassesPreLog(w: World, job: Job, fails: Failures) {
    && !fails.at(Lookup) && !fails.at(PreLog)
    && (job.txId in w.requests ==> !Terminal(w.requests[job.txId]) && !fails.at(DropStale))
  }

  /** What it takes, before a delivery, for it to go through: nothing screens it, its txId is new, no await
      through the commit fails, and the tables serve the job. */
  predicate GoesThrough(w: World, job: Job, fee: int, fails: Failures) {
    && PassesPreLog(w, job, fails) && job.txId !in w.tickets
    && !TransactionFails(job, fails) && Serve(w.books, job, fee).Ok?
  }

  /** A delivery that goes through does to the books what the job does alone; any other leaves them as they
      are, whatever fails. */
  lemma DeliveryMovesIff(w: World, job: Job, fee: int, fails: Failures)
    ensures var after := Handled(w, job, fee, fails).0.books;
            && (after != w.books <==> GoesThrough(w, job, fee, fails))
            && (after != w.books ==> Ok(after) == Serve(w.books, job, fee))
  {
    hide Serve, TransactionFails, Executed, Caught, RowsOf;
    var (w1, admission) := Admitted(w, job, fails);
    CaughtKeepsBooks(w1, job, fails);
    if admission.Enter? {
      ExecutedBooks(w1, job, fee, fails);
      if Serve(w.books, job, fee).Ok? { ServedIsLonger(w.books, job, fee); }
    }
  }

  lemma ServedIsLonger(b: Books, job: Job, fee: int)
    requires Serve(b, job, fee).Ok?
    ensures Serve(b, job, fee).value != b
  {
    ServedEffect(b, job, fee, 0);
    RowsAreSome(job, fee);
    hide Serve, RowsOf;
    assert |Serve(b, job, fee).value.ledger| > |b.ledger|;
  }

  lemma CaughtKeepsBooks(w: World, job: Job, fails: Failures)
    ensures Caught(w, job, fails).0.books == w.books
  {
  }

  lemma ExecutedBooks(w: World, job: Job, fee: int, fails: Failures)
    ensures var after := Executed(w, job, fee, fails).0.books;
            if TransactionFails(job, fails) || Serve(w.books, job, fee).Err? then after == w.books
            else Ok(after) == Serve(w.books, job, fee)
  {
    hide Serve, TransactionFails, MarkTicket;
  }

  predicate Closed(requests: map<string, Status>, txId: string) {
    txId in requests && (requests[txId] == Success || requests[txId] == Failed)
  }

  /** What a delivery leaves behind when only its transaction may abort, column by column: it is skipped under a
      final cached status or an existing ticket, and otherwise ends as a success or as a failure. */
  lemma DeliveryEnds(w: World, job: Job, fee: int, fails: Failures)
    requires Benign(fails)
    ensures var t, user := job.txId, if job.Transfer? then job.senderId else job.userId;
            Handled(w, job, fee, fails) ==
              if Closed(w.requests, t) then (w, Returned)
              else if t in w.tickets then (w.(requests := w.requests - {t}), Returned)
              else if !TransactionFails(job, fails) && Serve(w.books, job, fee).Ok? then
                (World(Serve(w.books, job, fee).value,
                       w.tickets[t := Ticket(user, job.currency, Success)],
                       w.requests[t := Success],
                       w.lists - if job.Fund? then {} else if job.Withdraw? then {job.userId}
                                 else {job.senderId, job.recipientId}),
                 Returned)
              else
                (World(w.books, w.tickets[t := Ticket(user, job.currency, Failed)], w.requests[t := Failed], w.lists),
                 if job.Withdraw? then Returned else Threw)
  {
    hide Serve, TransactionFails, Executed, Caught, Admitted, Benign, Closed;
    AdmissionEnds(w, job, fails);
    var t, user := job.txId, if job.Transfer? then job.senderId else job.userId;
    if !Closed(w.requests, t) && t !in w.tickets {
      var ticket := Ticket(user, job.currency, Pending);
      var done := if !TransactionFails(job, fails) && Serve(w.books, job, fee).Ok? then Success else Failed;
      ExecutedEnds(w.(requests := w.requests - {t}, tickets := w.tickets[t := ticket]), job, fee, fails);
      LastWriteStays(w.requests, t, Pending, done);
      LastWriteStays(w.tickets, t, ticket, ticket.(status := done));
    }
  }

  /** The idempotency check and pre-log, when nothing fails in them. */
  lemma AdmissionEnds(w: World, job: Job, fails: Failures)
    requires Benign(fails)
    ensures var t, user := job.txId, if job.Transfer? then job.senderId else job.userId;
            Admitted(w, job, fails) ==
              if Closed(w.requests, t) then (w, Skip)
              else if t in w.tickets then (w.(requests := w.requests - {t}), Skip)
              else (w.(requests := w.requests - {t},
                       tickets := w.tickets[t := Ticket(user, job.currency, Pending)]), Enter)
  {
    assert !fails.at(Lookup) && !fails.at(DropStale) && !fails.at(PreLog);
  }

  /** Exactly when a handler throws, whatever fails: it stumbles on an await, a check or a conflict before its end,
      and, for a withdrawal, which keeps that to itself, its catch block stumbles too. */
  lemma ThrowsIff(w: World, job: Job, fee: int, fails: Failures)
    ensures var t := job.txId;
            Handled(w, job, fee, fails).1 == Threw <==>
              && (|| fails.at(Lookup)
                  || (!Closed(w.requests, t)
                      && (|| (t in w.requests && fails.at(DropStale))
                          || fails.at(PreLog)
                          || (t !in w.tickets
                              && (|| TransactionFails(job, fails) || Serve(w.books, job, fee).Err?
                                  || fails.at(CacheSuccess) || (!job.Fund? && fails.at(DropLists))
                                  || fails.at(Notify))))))
              && (job.Withdraw? ==> fails.at(MarkFailed) || fails.at(CacheFailed))
  {
    hide Serve, TransactionFails, MarkTicket;
  }

  lemma LastWriteStays<V>(m: map<string, V>, key: string, first: V, last: V)
    ensures m[key := first][key := last] == m[key := last]
    ensures (m - {key})[key := last] == m[key := last]
  {
  }

  lemma ExecutedEnds(w: World, job: Job, fee: int, fails: Failures)
    requires Benign(fails) && job.txId in w.tickets
    ensures var t, ticket := job.txId, w.tickets[job.txId];
            Executed(w, job, fee, fails) ==
              if !TransactionFails(job, fails) && Serve(w.books, job, fee).Ok? then
                (World(Serve(w.books, job, fee).value, w.tickets[t := ticket.(status := Success)],
                       w.requests[t := Success],
                       w.lists - if job.Fund? then {} else if job.Withdraw? then {job.userId}
                                 else {job.senderId, job.recipientId}),
                 Returned)
              else
                (World(w.books, w.tickets[t := ticket.(status := Failed)], w.requests[t := Failed], w.lists),
                 if job.Withdraw? then Returned else Threw)
  {
    assert !fails.at(CacheSuccess) && !fails.at(DropLists) && !fails.at(Notify)
           && !fails.at(MarkFailed) && !fails.at(CacheFailed);
    hide Serve, TransactionFails;
  }

  // ---------------------------------------------------------------- API calls

  function TicketOf(tickets: map<string, Ticket>, txId: string): Option<Ticket> {
    if txId in tickets then Some(tickets[txId]) else None
  }

  /** fundWallet, withdrawFromWallet and transferFunds: screen the txId, then queue the job. */
  function Requested(w: World, job: Job): (World, Answer) {
    var call, t := Request(job), job.txId;
    if t in w.requests && Screened(call, w.requests[t]) then (w, Duplicate)
    else if t in w.tickets then (w.(requests := w.requests[t := w.tickets[t].status]), Duplicate)
    else (w, Queued)
  }

  /** createWallet. A ticket row of another outcome lets the wallet in and only then gets in the way. */
  function CreatedWallet(w: World, userId: int, currency: string, txId: string, newId: int, at: int): (World, Answer)
    requires newId !in w.books.wallets
  {
    var call := Create(userId, currency, txId);
    if txId in w.requests && Screened(call, w.requests[txId]) then (w, Duplicate)
    else if Refused(call, TicketOf(w.tickets, txId)) then (w.(requests := w.requests[txId := Success]), Duplicate)
    else if LiveWalletExists(w.books.wallets, userId, currency) then (w, Duplicate)
    else if !Vacant(w.books.wallets, userId, currency) then (w, Errored)
    else
      var wallet := NewWallet(userId, currency, at);
      var w1 := w.(books := w.books.(wallets := w.books.wallets[newId := wallet]));
      if txId in w1.tickets then (w1, Errored)
      else
        var w2 := w1.(tickets := w1.tickets[txId := Ticket(userId, currency, Success)],
                      requests := w1.requests[txId := Success]);
        if userId in w2.lists
        then (w2.(lists := w2.lists[userId := [Listed(newId, wallet)] + w2.lists[userId]]), Created)
        else (w2, Created)
  }

  /** The answer to a request: a duplicate under any cached status for a funding, under a final one otherwise, and
      under any ticket; that ticket's status is then cached, and nothing else changes. */
  lemma RequestAnswers(w: World, job: Job)
    ensures var t := job.txId;
            Requested(w, job) ==
              if (job.Fund? && t in w.requests) || Closed(w.requests, t) then (w, Duplicate)
              else if t in w.tickets then (w.(requests := w.requests[t := w.tickets[t].status]), Duplicate)
              else (w, Queued)
  {
  }

  /** The user has, or ever had, a wallet in the currency; `live` asks for one that is not deleted. */
  predicate HasSome(wallets: map<int, Wallet>, userId: int, currency: string, live: bool) {
    exists id | id in wallets ::
      wallets[id].userId == userId && wallets[id].currency == currency && (live ==> !wallets[id].deleted)
  }

  /** The answer to a wallet creation, and the rows, entry and list it leaves: a duplicate under a cached success, a
      success ticket or a live wallet; an error if only a deleted wallet is in the way, or after the insert if any
      ticket is. */
  lemma CreationAnswers(w: World, userId: int, currency: string, txId: string, newId: int, at: int)
    requires newId !in w.books.wallets
    ensures var (after, answer) := CreatedWallet(w, userId, currency, txId, newId, at);
            var wallets, tickets := w.books.wallets, w.tickets;
            var duplicate := || (txId in w.requests && w.requests[txId] == Success)
                             || (txId in tickets && tickets[txId].status == Success)
                             || HasSome(wallets, userId, currency, true);
            var inserted := !duplicate && !HasSome(wallets, userId, currency, false);
            && (answer == Duplicate <==> duplicate)
            && (answer == Created <==> inserted && txId !in tickets)
            && (answer == Errored <==> !duplicate && !(inserted && txId !in tickets))
            && after.books.ledger == w.books.ledger
            && after.books.wallets ==
               (if inserted then wallets[newId := Wallet(userId, currency, 0, 0, at, false)] else wallets)
            && after.tickets ==
               (if inserted && txId !in tickets then tickets[txId := Ticket(userId, currency, Success)] else tickets)
            && after.requests ==
               (if answer == Created || (txId in tickets && tickets[txId].status == Success
                                         && !(txId in w.requests && w.requests[txId] == Success))
                then w.requests[txId := Success] else w.requests)
            && after.lists ==
               (if answer == Created && userId in w.lists
                then w.lists[userId := [Listed(newId, Wallet(userId, currency, 0, 0, at, false))] + w.lists[userId]]
                else w.lists)
  {
    LiveMeans(w.books.wallets, userId, currency);
    VacantMeans(w.books.wallets, userId, currency);
    hide HasSome, LiveWalletExists, Vacant;
  }

  lemma LiveMeans(wallets: map<int, Wallet>, userId: int, currency: string)
    ensures LiveWalletExists(wallets, userId, currency) <==> HasSome(wallets, userId, currency, true)
  {
    if HasSome(wallets, userId, currency, true) {
      var id :| id in wallets && wallets[id].userId == userId && wallets[id].currency == currency
                && !wallets[id].deleted;
      assert Owned(Some(wallets[id]), userId, currency);
    }
  }

  lemma VacantMeans(wallets: map<int, Wallet>, userId: int, currency: string)
    ensures Vacant(wallets, userId, currency) <==> !HasSome(wallets, userId, currency, false)
  {
  }
}
