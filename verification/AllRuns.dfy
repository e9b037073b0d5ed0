/** What every run keeps, whatever fails: the proof that the interleaved system commits a legal
    serial history. */
module AllRuns {
  import opened Domain
  import opened Books
  import opened History
  import opened Retry
  import opened Machine

  // ---------------------------------------------------------------- spent txIds

  predicate Spends(e: Event, txId: string) {
    (e.Moved? && e.job.txId == txId) || (e.Logged? && e.txId == txId)
  }

  predicate Spent(h: seq<Event>, txId: string) {
    exists i :: 0 <= i < |h| && Spends(h[i], txId)
  }

  lemma SpentAppend(h: seq<Event>, e: Event, txId: string)
    ensures Spent(h + [e], txId) <==> Spent(h, txId) || Spends(e, txId)
  {
    if Spent(h, txId) {
      var i :| 0 <= i < |h| && Spends(h[i], txId);
      assert Spends((h + [e])[i], txId);
    }
    if Spends(e, txId) { assert Spends((h + [e])[|h|], txId); }
  }

  ghost predicate SpentOnce(h: seq<Event>) {
    forall i, j, t :: 0 <= i < j < |h| && Spends(h[i], t) ==> !Spends(h[j], t)
  }

  lemma SpentOnceAppend(h: seq<Event>, e: Event)
    requires SpentOnce(h) && forall t :: Spends(e, t) ==> !Spent(h, t)
    ensures SpentOnce(h + [e])
  {
    forall i, j, t | 0 <= i < j < |h| + 1 && Spends((h + [e])[i], t) ensures !Spends((h + [e])[j], t) {
      assert Spends(h[i], t);
      if j == |h| && Spends(e, t) { assert Spent(h, t); }
    }
  }

  // ---------------------------------------------------------------- the invariant

  /** Between winning the ticket row and committing or failing. */
  predicate Holding(pc: Pc) {
    pc.Validate? || InTransaction(pc)
  }

  predicate BothRead(pc: Pc) {
    pc.UpdateFirst? || pc.UpdateSecond? || pc.WriteTicket? || pc.WriteLedger? || pc.Commit?
  }

  predicate FirstWritten(pc: Pc) {
    BothRead(pc) && !pc.UpdateFirst?
  }

  predicate AllWritten(pc: Pc) {
    FirstWritten(pc) && !pc.UpdateSecond?
  }

  predicate RowsWritten(w: Worker) {
    w.pc.Commit? || (w.pc.WriteTicket? && w.job.Transfer?)
  }

  function Bump(w: Wallet, delta: int): Wallet {
    w.(balance := w.balance + delta, version := w.version + 1)
  }

  /** The transaction has read what it says, at a moment since it began, and what it read passed. */
  predicate ReadsOk(sh: Shared, w: Worker) {
    && w.began <= |sh.history|
    && (w.pc.ReadSecond? || BothRead(w.pc) ==>
          w.began <= w.firstAt <= |sh.history| && w.first == Find(sh.Snapshot(w.firstAt), w.job.FirstWallet()))
    && (BothRead(w.pc) && w.job.Transfer? ==>
          w.began <= w.secondAt <= |sh.history| && w.second == Find(sh.Snapshot(w.secondAt), w.job.recipientWalletId))
    && (BothRead(w.pc) ==> Vet(w.job, w.first, w.second).Ok?)
  }

  /** Its pending writes are exactly those of the job, on rows that still are as they were read. */
  predicate WritesOk(sh: Shared, w: Worker) {
    && (!FirstWritten(w.pc) ==> w.writes == map[])
    && (w.rows == if RowsWritten(w) then RowsOf(w.job, w.fee) else [])
    && (w.pc.Commit? || (w.pc.WriteLedger? && !w.job.Transfer?) ==> w.marked)
    && (FirstWritten(w.pc) ==>
          && Find(sh.books.wallets, w.job.FirstWallet()) == w.first
          && w.first.Some?
          && (w.pc.UpdateSecond? || !w.job.Transfer? ==>
                w.writes == map[w.job.FirstWallet() := Bump(w.first.value, FirstDelta(w.job, w.fee))]))
    && (AllWritten(w.pc) && w.job.Transfer? ==>
          && w.job.recipientWalletId != w.job.senderWalletId
          && Find(sh.books.wallets, w.job.recipientWalletId) == w.second
          && w.second.Some?
          && w.writes == map[w.job.senderWalletId := Bump(w.first.value, -w.job.amount),
                             w.job.recipientWalletId := Bump(w.second.value, w.job.amount)])
  }

  predicate WorkerOk(sh: Shared, w: Worker) {
    && Admissible(w.job)
    && (w.won ==> w.job.txId in sh.tickets)
    && (w.pc.Lookup? || w.pc.DropStale? || w.pc.PreLog? ==> !w.won)
    && (Holding(w.pc) ==> w.won && !Spent(sh.history, w.job.txId))
    && (w.pc.Validate? ==> w.job.Fund?)
    && (w.pc.ReadSecond? || w.pc.UpdateSecond? ==> w.job.Transfer?)
    && (InTransaction(w.pc) && w.job.Fund? ==>
          Owned(Find(sh.books.wallets, w.job.FirstWallet()), w.job.Requester(), w.job.currency))
    && (InTransaction(w.pc) && !w.pc.Begin? ==> Chargeable(w.job, w.fee))
    && ReadsOk(sh, w)
    && WritesOk(sh, w)
  }

  ghost predicate TicketsOk(sh: Shared) {
    && (forall t :: t !in sh.tickets ==> !Spent(sh.history, t))
    && (forall t | t in sh.tickets ::
          && (sh.tickets[t].status == Pending ==> !Spent(sh.history, t))
          && (sh.tickets[t].status == Success ==> Spent(sh.history, t)))
  }

  ghost predicate SharedOk(sh: Shared) {
    && OneWalletPerCurrency(sh.start)
    && Legal(sh.Origin(), sh.history)
    && sh.books == Now(sh.Origin(), sh.history)
    && SpentOnce(sh.history)
    && TicketsOk(sh)
  }

  /** Two workers never lock the same row, and never both win the same ticket. */
  predicate Apart(v: Worker, w: Worker) {
    v.writes.Keys !! w.writes.Keys && !(v.won && w.won && v.job.txId == w.job.txId)
  }

  predicate AllAdmissible(ms: multiset<Message>) {
    forall m | m in ms :: Admissible(m.payload)
  }

  predicate MessagesOk(s: State) {
    && AllAdmissible(s.ready) && AllAdmissible(s.unacked)
    && (forall cid | cid in s.clients :: s.clients[cid].call.Request? ==> Admissible(s.clients[cid].call.job))
  }

  ghost predicate Inv(s: State) {
    && SharedOk(s.shared)
    && (forall wid | wid in s.workers :: WorkerOk(s.shared, s.workers[wid]))
    && (forall a, b | a in s.workers && b in s.workers && a != b :: Apart(s.workers[a], s.workers[b]))
    && MessagesOk(s)
  }

  // ---------------------------------------------------------------- what a step does to the others

  /** The effect of one step on the shared state, as the other parties see it: the history grows,
      only rows in `keys` change, no ticket disappears, and no txId but `spender` is spent. */
  ghost predicate Rely(sh: Shared, sh': Shared, keys: set<int>, spender: Option<string>) {
    && sh'.start == sh.start
    && sh.history <= sh'.history
    && sh.tickets.Keys <= sh'.tickets.Keys
    && (forall id | id in sh.books.wallets ::
          && id in sh'.books.wallets
          && (id !in keys ==> sh'.books.wallets[id] == sh.books.wallets[id])
          && Later(sh.books.wallets[id], sh'.books.wallets[id]))
    && (forall t :: Spent(sh'.history, t) && spender != Some(t) ==> Spent(sh.history, t))
  }

  lemma Undisturbed(sh: Shared, sh': Shared, keys: set<int>, spender: Option<string>, w: Worker)
    requires WorkerOk(sh, w) && Rely(sh, sh', keys, spender)
    requires w.writes.Keys !! keys
    requires Holding(w.pc) ==> spender != Some(w.job.txId)
    ensures WorkerOk(sh', w)
  {
    if w.pc.ReadSecond? || BothRead(w.pc) { AtPrefix(sh.Origin(), sh.history, sh'.history, w.firstAt); }
    if BothRead(w.pc) && w.job.Transfer? { AtPrefix(sh.Origin(), sh.history, sh'.history, w.secondAt); }
  }

  // ---------------------------------------------------------------- a worker's own steps

  /** An optimistic check still holds at the write: the row has the version that was read, hence
      it is the row that was read. */
  lemma GuardMeansUnchanged(sh: Shared, id: int, read: Option<Wallet>, readAt: nat)
    requires SharedOk(sh) && readAt <= |sh.history| && read == Find(sh.Snapshot(readAt), id) && read.Some?
    requires id in sh.books.wallets && sh.books.wallets[id].version == read.value.version
    ensures sh.books.wallets[id] == read.value
  {
    VersionDeterminesRow(sh.Origin(), sh.history, readAt, |sh.history|, id);
  }

  /** The pending writes of a transaction that reaches its commit are what the job does alone. */
  lemma CommitIsServe(sh: Shared, w: Worker)
    requires SharedOk(sh) && WorkerOk(sh, w) && w.pc.Commit? && Insertable(sh.books.ledger, w.rows)
    ensures Serve(sh.books, w.job, w.fee) == Ok(Books(sh.books.wallets + w.writes, sh.books.ledger + w.rows))
  {
    var b := sh.books.wallets;
    if w.job.Transfer? {
      assert b + w.writes == b[w.job.senderWalletId := w.writes[w.job.senderWalletId]]
                              [w.job.recipientWalletId := w.writes[w.job.recipientWalletId]];
    } else {
      assert b + w.writes == b[w.job.FirstWallet() := w.writes[w.job.FirstWallet()]];
    }
  }

  /** The txId an advancing worker spends, if any. */
  function Spender(sh: Shared, sh': Shared, w: Worker): Option<string> {
    if sh'.history != sh.history then Some(w.job.txId) else None
  }

  ghost predicate StepOk(sh: Shared, w: Worker, r: (Shared, Worker)) {
    && SharedOk(r.0)
    && WorkerOk(r.0, r.1)
    && Rely(sh, r.0, w.writes.Keys, Spender(sh, r.0, w))
    && (r.0.history != sh.history ==> w.won)
    && r.1.job == w.job && r.1.attempts == w.attempts
    && (r.1.won && !w.won ==> w.job.txId !in sh.tickets)
  }

  /** A step that leaves everything but the cache alone only has to look after its own worker. */
  lemma QuietStep(sh: Shared, w: Worker, sh': Shared, w': Worker)
    requires SharedOk(sh) && WorkerOk(sh, w')
    requires sh' == sh.(cache := sh'.cache)
    requires w'.job == w.job && w'.attempts == w.attempts && w'.won == w.won
    ensures StepOk(sh, w, (sh', w'))
  {
    Untouched(sh, sh', w.writes.Keys, None);
    Undisturbed(sh, sh', {}, None, w');
  }

  /** The shared state minus its books and history: tickets and cache entries come and go. */
  lemma Untouched(sh: Shared, sh': Shared, keys: set<int>, spender: Option<string>)
    requires sh'.start == sh.start && sh'.history == sh.history && sh'.books == sh.books
    requires sh.tickets.Keys <= sh'.tickets.Keys
    ensures Rely(sh, sh', keys, spender)
    ensures Rely(sh, sh', {}, None)
  {
  }

  lemma FailOk(sh: Shared, w: Worker)
    requires WorkerOk(sh, w)
    ensures WorkerOk(sh, Throw(w))
  {
  }

  lemma OpeningStep(sh: Shared, w: Worker, snap: nat, fee: int)
    requires SharedOk(sh) && WorkerOk(sh, w) && Choosable(sh, w, snap, fee)
    requires w.pc.Lookup? || w.pc.DropStale? || w.pc.Validate?
    ensures StepOk(sh, w, Advance(sh, w, snap, fee))
  {
    hide SharedOk, StepOk, Spent, Owned, Vet, At, AdvanceTransaction, AdvanceEnding;
    FailOk(sh, w);
    var (sh', w') := Advance(sh, w, snap, fee);
    assert WorkerOk(sh, w');
    QuietStep(sh, w, sh', w');
  }

  lemma EndingStep(sh: Shared, w: Worker, snap: nat, fee: int)
    requires SharedOk(sh) && WorkerOk(sh, w) && Choosable(sh, w, snap, fee)
    requires w.pc.CacheSuccess? || w.pc.DropLists? || w.pc.Notify? || w.pc.CacheFailed?
    ensures StepOk(sh, w, Advance(sh, w, snap, fee))
  {
    hide SharedOk, StepOk, Spent, Owned, Vet, At, AdvanceTransaction, AdvanceOpening;
    var (sh', w') := Advance(sh, w, snap, fee);
    assert WorkerOk(sh, w');
    QuietStep(sh, w, sh', w');
  }

  /** Creating a ticket, or marking one failed, makes no spent txId look unspent. */
  lemma TicketChange(sh: Shared, sh': Shared, txId: string, t: Ticket)
    requires SharedOk(sh) && sh' == sh.(tickets := sh.tickets[txId := t])
    requires t.status == Failed || (t.status == Pending && txId !in sh.tickets)
    ensures SharedOk(sh') && TicketsOk(sh')
  {
    hide Legal, OneWalletPerCurrency, SpentOnce, Spent;
  }

  lemma PreLogStep(sh: Shared, w: Worker, snap: nat, fee: int)
    requires SharedOk(sh) && WorkerOk(sh, w) && Choosable(sh, w, snap, fee) && w.pc.PreLog?
    ensures StepOk(sh, w, Advance(sh, w, snap, fee))
  {
    assert TicketsOk(sh);
    hide SharedOk, TicketsOk, Rely, Spent, Vet, Owned, At, AdvanceTransaction, AdvanceEnding;
    var (sh', w') := Advance(sh, w, snap, fee);
    Untouched(sh, sh', w.writes.Keys, None);
    if w.job.txId !in sh.tickets {
      TicketChange(sh, sh', w.job.txId, sh'.tickets[w.job.txId]);
      UnticketedUnspent(sh, w.job.txId);
    }
    assert WorkerOk(sh', w');
  }

  lemma MarkStep(sh: Shared, w: Worker, snap: nat, fee: int)
    requires SharedOk(sh) && WorkerOk(sh, w) && Choosable(sh, w, snap, fee) && w.pc.MarkFailed?
    ensures StepOk(sh, w, Advance(sh, w, snap, fee))
  {
    hide SharedOk, Rely, Spent, Vet, Owned, At, AdvanceTransaction, AdvanceOpening;
    var (sh', w') := Advance(sh, w, snap, fee);
    Untouched(sh, sh', w.writes.Keys, None);
    if w.job.txId in sh.tickets { TicketChange(sh, sh', w.job.txId, sh'.tickets[w.job.txId]); }
    assert WorkerOk(sh', w');
  }

  lemma UnticketedUnspent(sh: Shared, txId: string)
    requires TicketsOk(sh) && txId !in sh.tickets
    ensures !Spent(sh.history, txId)
  {
  }

  /** A funding checked its wallet before the transaction; whatever snapshot it reads now, the
      owner, currency and deletion mark are the same. */
  lemma FundingReadIsOwned(sh: Shared, job: Job, snap: nat)
    requires SharedOk(sh) && snap <= |sh.history| && job.Fund? && job.walletId in sh.Snapshot(snap)
    requires Owned(Find(sh.books.wallets, job.walletId), job.userId, job.currency)
    ensures Vet(job, Find(sh.Snapshot(snap), job.walletId), None).Ok?
  {
    VersionDeterminesRow(sh.Origin(), sh.history, snap, |sh.history|, job.walletId);
  }

  /** The statement that follows, when one succeeds. */
  function Successor(pc: Pc, job: Job): Pc
    requires InTransaction(pc)
  {
    match pc
    case Begin => ReadFirst
    case ReadFirst => if job.Transfer? then ReadSecond else UpdateFirst
    case ReadSecond => UpdateFirst
    case UpdateFirst => if job.Transfer? then UpdateSecond else WriteTicket
    case UpdateSecond => WriteLedger
    case WriteTicket => if job.Transfer? then Pc.Commit else WriteLedger
    case WriteLedger => if job.Transfer? then WriteTicket else Pc.Commit
    case Commit => CacheSuccess
  }

  /** A statement goes on to the next one or to the catch block; nothing is shared before the commit,
      and only the reads change what has been read. */
  predicate Statement(sh: Shared, w: Worker, snap: nat, fee: int, r: (Shared, Worker))
    requires InTransaction(w.pc) && Choosable(sh, w, snap, fee)
  {
    var (sh', w') := r;
    && (w'.pc == MarkFailed || w'.pc == Successor(w.pc, w.job))
    && w'.job == w.job && w'.attempts == w.attempts && w'.won == w.won
    && (!w.pc.Commit? || w'.pc == MarkFailed ==> sh' == sh)
    && w'.fee == (if w.pc.Begin? then fee else w.fee)
    && w'.began == (if w.pc.Begin? then |sh.history| else w.began)
    && w'.first == (if w.pc.ReadFirst? then Find(sh.Snapshot(snap), w.job.FirstWallet()) else w.first)
    && w'.second == (if w.pc.ReadSecond? then SecondRead(sh.Snapshot(snap), w.job) else w.second)
  }

  lemma ReadStatement(sh: Shared, w: Worker, snap: nat, fee: int)
    requires Choosable(sh, w, snap, fee) && (w.pc.Begin? || w.pc.ReadFirst? || w.pc.ReadSecond?)
    ensures Statement(sh, w, snap, fee, Advance(sh, w, snap, fee))
  {
    hide At, Vet, Find, SecondRead, AdvanceOpening, AdvanceEnding;
  }

  lemma WriteStatement(sh: Shared, w: Worker, snap: nat, fee: int)
    requires Choosable(sh, w, snap, fee) && InTransaction(w.pc) && !w.pc.Begin? && !w.pc.ReadFirst? && !w.pc.ReadSecond?
    ensures Statement(sh, w, snap, fee, Advance(sh, w, snap, fee))
  {
    hide At, Vet, Insertable, GuardedBy, RowsOf, Find, SecondRead, AdvanceOpening, AdvanceEnding;
  }

  lemma StatementStep(sh: Shared, w: Worker, snap: nat, fee: int)
    requires InTransaction(w.pc) && Choosable(sh, w, snap, fee)
    ensures Statement(sh, w, snap, fee, Advance(sh, w, snap, fee))
  {
    hide Advance, Statement;
    if w.pc.Begin? || w.pc.ReadFirst? || w.pc.ReadSecond? { ReadStatement(sh, w, snap, fee); }
    else { WriteStatement(sh, w, snap, fee); }
  }

  lemma ReadStep(sh: Shared, w: Worker, snap: nat, fee: int)
    requires SharedOk(sh) && WorkerOk(sh, w) && Choosable(sh, w, snap, fee)
    requires w.pc.Begin? || w.pc.ReadFirst? || w.pc.ReadSecond?
    ensures StepOk(sh, w, Advance(sh, w, snap, fee))
  {
    hide SharedOk, StepOk, Spent, Owned, At, AdvanceOpening, AdvanceEnding;
    if w.pc.ReadFirst? && w.job.Fund? && w.job.walletId in sh.Snapshot(snap) {
      FundingReadIsOwned(sh, w.job, snap);
    }
    var (sh', w') := Advance(sh, w, snap, fee);
    assert WorkerOk(sh, w');
    QuietStep(sh, w, sh', w');
  }

  lemma UpdateFirstStep(sh: Shared, w: Worker, snap: nat, fee: int)
    requires SharedOk(sh) && WorkerOk(sh, w) && Choosable(sh, w, snap, fee) && w.pc.UpdateFirst?
    ensures StepOk(sh, w, Advance(sh, w, snap, fee))
  {
    hide SharedOk, StepOk, Spent, Owned, At, AdvanceOpening, AdvanceEnding;
    var (sh', w') := Advance(sh, w, snap, fee);
    if w'.pc.MarkFailed? {
      FailOk(sh, w);
    } else {
      GuardMeansUnchanged(sh, w.job.FirstWallet(), w.first, w.firstAt);
    }
    QuietStep(sh, w, sh', w');
  }

  /** The second guard can only match on another wallet: on the first one the transaction sees its
      own bumped version, which no read can have returned. */
  lemma SecondGuardMeansUnchanged(sh: Shared, w: Worker)
    requires SharedOk(sh) && WorkerOk(sh, w) && w.pc.UpdateSecond?
    requires GuardedBy(w.View(sh), w.job.recipientWalletId, w.second, w.job.amount).Some?
    ensures w.job.recipientWalletId != w.job.senderWalletId
    ensures Find(sh.books.wallets, w.job.recipientWalletId) == w.second && w.second.Some?
  {
    VersionDeterminesRow(sh.Origin(), sh.history, w.secondAt, |sh.history|, w.job.recipientWalletId);
  }

  lemma UpdateSecondStep(sh: Shared, w: Worker, snap: nat, fee: int)
    requires SharedOk(sh) && WorkerOk(sh, w) && Choosable(sh, w, snap, fee) && w.pc.UpdateSecond?
    ensures StepOk(sh, w, Advance(sh, w, snap, fee))
  {
    hide SharedOk, StepOk, Spent, Owned, At, AdvanceOpening, AdvanceEnding;
    var (sh', w') := Advance(sh, w, snap, fee);
    if w'.pc.MarkFailed? {
      FailOk(sh, w);
    } else {
      SecondGuardMeansUnchanged(sh, w);
    }
    QuietStep(sh, w, sh', w');
  }

  lemma WriteStep(sh: Shared, w: Worker, snap: nat, fee: int)
    requires SharedOk(sh) && WorkerOk(sh, w) && Choosable(sh, w, snap, fee)
    requires w.pc.WriteTicket? || w.pc.WriteLedger?
    ensures StepOk(sh, w, Advance(sh, w, snap, fee))
  {
    hide SharedOk, StepOk, Spent, Owned, Vet, At, Insertable, AdvanceOpening, AdvanceEnding;
    FailOk(sh, w);
    var (sh', w') := Advance(sh, w, snap, fee);
    assert WorkerOk(sh, w');
    QuietStep(sh, w, sh', w');
  }

  /** A commit appends one accepted event, on rows this worker has locked. */
  lemma CommitStep(sh: Shared, w: Worker, snap: nat, fee: int)
    requires SharedOk(sh) && WorkerOk(sh, w) && Choosable(sh, w, snap, fee) && w.pc.Commit?
    ensures StepOk(sh, w, Advance(sh, w, snap, fee))
  {
    hide SharedOk, Rely, Spent, Vet, Owned, At, RowsOf, Insertable, AdvanceOpening, AdvanceEnding;
    var (sh', w') := Advance(sh, w, snap, fee);
    if w'.pc.MarkFailed? {
      FailOk(sh, w);
      QuietStep(sh, w, sh', w');
    } else {
      CommitAccepted(sh, w, sh');
      assert WorkerOk(sh', w');
    }
  }

  lemma CommitAccepted(sh: Shared, w: Worker, sh': Shared)
    requires SharedOk(sh) && WorkerOk(sh, w) && w.pc.Commit? && Insertable(sh.books.ledger, w.rows)
    requires sh' == sh.(books := Books(sh.books.wallets + w.writes, sh.books.ledger + w.rows),
                        tickets := sh.tickets[w.job.txId := sh.tickets[w.job.txId].(status := Success)],
                        history := sh.history + [Moved(w.job, w.fee)])
    ensures SharedOk(sh') && Rely(sh, sh', w.writes.Keys, Some(w.job.txId))
  {
    var e := Moved(w.job, w.fee);
    CommitIsServe(sh, w);
    hide Legal, OneWalletPerCurrency, Insertable, Vet, Serve, Now, RowsOf;
    assert Accepts(sh.books, e) && Perform(sh.books, e) == sh'.books;
    Extend(sh.Origin(), sh.history, e);
    SpendAppends(sh, sh', e, w.job.txId);
    forall id | id in sh.books.wallets
      ensures id in sh'.books.wallets && Later(sh.books.wallets[id], sh'.books.wallets[id])
    {
      ServedEffect(sh.books, w.job, w.fee, id);
    }
  }

  /** Appending an event that spends a fresh txId keeps the bookkeeping of txIds. */
  lemma SpendAppends(sh: Shared, sh': Shared, e: Event, txId: string)
    requires SpentOnce(sh.history) && TicketsOk(sh) && sh'.history == sh.history + [e]
    requires !Spent(sh.history, txId) && forall t :: Spends(e, t) <==> t == txId
    requires txId in sh'.tickets && sh'.tickets[txId].status == Success
    requires forall t | t != txId :: (t in sh'.tickets <==> t in sh.tickets)
    requires forall t | t != txId && t in sh.tickets :: sh'.tickets[t] == sh.tickets[t]
    ensures SpentOnce(sh'.history) && TicketsOk(sh')
    ensures forall t :: Spent(sh'.history, t) <==> Spent(sh.history, t) || t == txId
  {
    forall t ensures Spent(sh'.history, t) <==> Spent(sh.history, t) || t == txId {
      SpentAppend(sh.history, e, t);
    }
    SpentOnceAppend(sh.history, e);
  }

  lemma AdvanceOk(sh: Shared, w: Worker, snap: nat, fee: int)
    requires SharedOk(sh) && WorkerOk(sh, w) && Choosable(sh, w, snap, fee)
    ensures StepOk(sh, w, Advance(sh, w, snap, fee))
  {
    hide SharedOk, WorkerOk, StepOk, AdvanceOpening, AdvanceTransaction, AdvanceEnding;
    match w.pc
    case PreLog => PreLogStep(sh, w, snap, fee);
    case MarkFailed => MarkStep(sh, w, snap, fee);
    case Begin => ReadStep(sh, w, snap, fee);
    case ReadFirst => ReadStep(sh, w, snap, fee);
    case ReadSecond => ReadStep(sh, w, snap, fee);
    case UpdateFirst => UpdateFirstStep(sh, w, snap, fee);
    case UpdateSecond => UpdateSecondStep(sh, w, snap, fee);
    case WriteTicket => WriteStep(sh, w, snap, fee);
    case WriteLedger => WriteStep(sh, w, snap, fee);
    case Commit => CommitStep(sh, w, snap, fee);
    case Lookup => OpeningStep(sh, w, snap, fee);
    case DropStale => OpeningStep(sh, w, snap, fee);
    case Validate => OpeningStep(sh, w, snap, fee);
    case _ => EndingStep(sh, w, snap, fee);
  }

  // ---------------------------------------------------------------- every step of the system

  /** The row locks: a step takes at most the lock it found free. */
  lemma LocksStayApart(s: State, wid: int, snap: nat, fee: int, other: int)
    requires Inv(s) && Runnable(s, wid, snap, fee) && other in s.workers && other != wid
    ensures Advance(s.shared, s.workers[wid], snap, fee).1.writes.Keys !! s.workers[other].writes.Keys
  {
    hide SharedOk, ReadsOk, WritesOk, MessagesOk, At, Vet, Insertable, Spent;
    assert WorkerOk(s.shared, s.workers[wid]);
    assert Apart(s.workers[wid], s.workers[other]);
  }

  lemma ResumeOk(s: State, wid: int, r: (Shared, Worker))
    requires Inv(s) && wid in s.workers && StepOk(s.shared, s.workers[wid], r)
    requires forall other | other in s.workers && other != wid :: r.1.writes.Keys !! s.workers[other].writes.Keys
    ensures Inv(Resume(s, wid, r))
  {
    hide SharedOk;
    var w := s.workers[wid];
    var s' := Resume(s, wid, r);
    forall other | other in s.workers && other != wid
      ensures WorkerOk(r.0, s.workers[other]) && Apart(r.1, s.workers[other]) && Apart(s.workers[other], r.1)
    {
      assert Apart(w, s.workers[other]);
      assert WorkerOk(s.shared, s.workers[other]);
      Undisturbed(s.shared, r.0, w.writes.Keys, Spender(s.shared, r.0, w), s.workers[other]);
    }
  }

  /** What an API call may do to the shared state. */
  lemma RespondOk(sh: Shared, c: Client, newId: int, at: int)
    requires SharedOk(sh) && CanRespond(sh, c, newId)
    ensures var (sh', c') := Respond(sh, c, newId, at);
            && SharedOk(sh')
            && c'.call == c.call
            && (Rely(sh, sh', {}, None) || (c.TxId() !in sh.tickets && Rely(sh, sh', {}, Some(c.TxId()))))
  {
    var (sh', c') := Respond(sh, c, newId, at);
    if c.pc.InsertWallet? && sh' != sh {
      OpenOk(sh, sh', Opened(newId, c.call.userId, c.call.currency, at));
    } else if c.pc.InsertTicket? && sh' != sh {
      LogOk(sh, sh', c.TxId());
    } else {
      hide Legal, OneWalletPerCurrency, SpentOnce, Spent, TicketsOk;
      Untouched(sh, sh', {}, None);
    }
  }

  lemma OpenOk(sh: Shared, sh': Shared, e: Event)
    requires SharedOk(sh) && e.Opened? && Accepts(sh.books, e)
    requires sh' == sh.(books := Perform(sh.books, e), history := sh.history + [e])
    ensures SharedOk(sh') && Rely(sh, sh', {}, None)
  {
    Extend(sh.Origin(), sh.history, e);
    hide Legal, OneWalletPerCurrency, Now;
    forall t ensures Spent(sh'.history, t) <==> Spent(sh.history, t) {
      SpentAppend(sh.history, e, t);
    }
    SpentOnceAppend(sh.history, e);
  }

  lemma LogOk(sh: Shared, sh': Shared, txId: string)
    requires SharedOk(sh) && txId !in sh.tickets
    requires txId in sh'.tickets && sh'.tickets[txId].status == Success
    requires sh' == sh.(tickets := sh.tickets[txId := sh'.tickets[txId]], history := sh.history + [Logged(txId)])
    ensures SharedOk(sh') && Rely(sh, sh', {}, Some(txId))
  {
    var e := Logged(txId);
    Extend(sh.Origin(), sh.history, e);
    hide Legal, OneWalletPerCurrency, Now;
    SpendAppends(sh, sh', e, txId);
  }

  lemma StepKeepsInv(s: State, a: Action)
    requires Inv(s) && Enabled(s, a) && a.Step?
    ensures Inv(Apply(s, a))
  {
    var w := s.workers[a.wid];
    AdvanceOk(s.shared, w, a.snap, a.fee);
    forall other | other in s.workers && other != a.wid
      ensures Advance(s.shared, w, a.snap, a.fee).1.writes.Keys !! s.workers[other].writes.Keys
    {
      LocksStayApart(s, a.wid, a.snap, a.fee, other);
    }
    hide Inv, StepOk, Advance;
    ResumeOk(s, a.wid, Advance(s.shared, w, a.snap, a.fee));
  }

  /** A failed await: its effect may or may not have taken place, the worker's own writes are gone. */
  lemma FaultStepOk(sh: Shared, w: Worker, snap: nat, fee: int, applied: bool)
    requires SharedOk(sh) && WorkerOk(sh, w) && Choosable(sh, w, snap, fee)
    ensures StepOk(sh, w, (if applied then Advance(sh, w, snap, fee).0 else sh, Throw(w)))
  {
    hide SharedOk, Advance, Spent, At, Legal;
    FailOk(sh, w);
    if applied {
      var sh' := Advance(sh, w, snap, fee).0;
      AdvanceOk(sh, w, snap, fee);
      Undisturbed(sh, sh', w.writes.Keys, Spender(sh, sh', w), Throw(w));
    } else {
      QuietStep(sh, w, sh, Throw(w));
    }
  }

  lemma FaultKeepsInv(s: State, a: Action)
    requires Inv(s) && Enabled(s, a) && (a.Fault? || a.DbAbort?)
    ensures Inv(Apply(s, a))
  {
    var w := s.workers[a.wid];
    var sh' := s.shared;
    if a.Fault? {
      FaultStepOk(s.shared, w, a.snap, a.fee, a.applied);
      sh' := if a.applied then Advance(s.shared, w, a.snap, a.fee).0 else s.shared;
    } else {
      FailOk(s.shared, w);
      QuietStep(s.shared, w, s.shared, Fail(w));
    }
    assert Throw(w).writes == map[];
    ResumeOk(s, a.wid, (sh', Throw(w)));
  }

  lemma DeliverKeepsInv(s: State, a: Action)
    requires Inv(s) && Enabled(s, a) && a.Deliver?
    ensures Inv(Apply(s, a))
  {
    hide SharedOk, Legal, At, Spent;
    var w := NewWorker(a.message);
    assert WorkerOk(s.shared, w);
  }

  lemma ClientKeepsInv(s: State, a: Action)
    requires Inv(s) && Enabled(s, a) && a.Proceed?
    ensures Inv(Apply(s, a))
  {
    var c := s.clients[a.cid];
    var (sh', c') := Respond(s.shared, c, a.newId, a.at);
    RespondOk(s.shared, c, a.newId, a.at);
    hide SharedOk, Respond, Spent;
    forall wid | wid in s.workers ensures WorkerOk(sh', s.workers[wid]) {
      var spender := if Rely(s.shared, sh', {}, None) then None else Some(c.TxId());
      Undisturbed(s.shared, sh', {}, spender, s.workers[wid]);
    }
  }

  /** Steps of the broker and of the callers only move messages, workers and calls about. */
  lemma MessageStepKeepsInv(s: State, a: Action)
    requires Inv(s) && Enabled(s, a)
    requires !a.Step? && !a.Fault? && !a.DbAbort? && !a.Deliver? && !a.Proceed? && !a.Expire?
    ensures Inv(Apply(s, a))
  {
    hide SharedOk, WorkerOk, Apart;
    MessagesStayAdmissible(s, a);
  }

  lemma MessagesStayAdmissible(s: State, a: Action)
    requires Inv(s) && Enabled(s, a)
    requires !a.Step? && !a.Fault? && !a.DbAbort? && !a.Deliver? && !a.Proceed? && !a.Expire?
    ensures MessagesOk(Apply(s, a))
  {
    hide Inv, Admissible, AllAdmissible, InFlight;
    QueuesAreAdmissible(s);
    match a {
      case Settle(wid, _) => SentBackIsAdmissible(s, wid);
      case Retire(wid) => SentBackIsAdmissible(s, wid);
      case Crash(wid) => SentBackIsAdmissible(s, wid);
      case Copy(m) => CopiesAreAdmissible(s, m); AdmissibleAfter(s.ready, m);
      case Redeliver(m) => AdmissibleAfter(s.ready, m); AdmissibleAfter(s.unacked, m);
      case _ =>
    }
  }

  lemma QueuesAreAdmissible(s: State)
    requires Inv(s)
    ensures MessagesOk(s)
  {
    hide WorkerOk, SharedOk, Apart, MessagesOk;
  }

  lemma SentBackIsAdmissible(s: State, wid: int)
    requires Inv(s) && wid in s.workers
    ensures var w := s.workers[wid];
            && AllAdmissible(s.ready + multiset{Envelope(w.job, w.attempts)})
            && AllAdmissible(s.ready + multiset{Envelope(w.job, w.attempts + 1)})
            && AllAdmissible(s.unacked + multiset{Envelope(w.job, w.attempts)})
  {
    hide Inv, Admissible, AllAdmissible;
    var w := s.workers[wid];
    QueuesAreAdmissible(s);
    JobsAreAdmissible(s, wid);
    AdmissibleAfter(s.ready, Envelope(w.job, w.attempts));
    AdmissibleAfter(s.ready, Envelope(w.job, w.attempts + 1));
    AdmissibleAfter(s.unacked, Envelope(w.job, w.attempts));
  }

  lemma AdmissibleAfter(ms: multiset<Message>, m: Message)
    requires AllAdmissible(ms)
    ensures AllAdmissible(ms - multiset{m})
    ensures Admissible(m.payload) ==> AllAdmissible(ms + multiset{m})
    ensures m in ms ==> Admissible(m.payload)
  {
  }

  lemma CopiesAreAdmissible(s: State, m: Message)
    requires Inv(s) && (m in s.ready || m in s.unacked || InFlight(s, m))
    ensures Admissible(m.payload)
  {
    if InFlight(s, m) {
      var wid :| wid in s.workers && Carries(s.workers[wid], m);
      JobsAreAdmissible(s, wid);
    }
  }

  lemma JobsAreAdmissible(s: State, wid: int)
    requires Inv(s) && wid in s.workers
    ensures Admissible(s.workers[wid].job)
  {
    assert WorkerOk(s.shared, s.workers[wid]);
  }

  lemma ExpiryKeepsInv(s: State, a: Action)
    requires Inv(s) && Enabled(s, a) && a.Expire?
    ensures Inv(Apply(s, a))
  {
    hide Spent, Vet, Legal, OneWalletPerCurrency, SpentOnce, Now;
    forall wid | wid in s.workers ensures WorkerOk(Apply(s, a).shared, s.workers[wid]) {
      assert WorkerOk(s.shared, s.workers[wid]);
    }
  }

  lemma ApplyKeepsInv(s: State, a: Action)
    requires Inv(s) && Enabled(s, a)
    ensures Inv(Apply(s, a))
  {
    hide Inv, Enabled, Apply;
    if a.Step? { StepKeepsInv(s, a); }
    else if a.Fault? || a.DbAbort? { FaultKeepsInv(s, a); }
    else if a.Deliver? { DeliverKeepsInv(s, a); }
    else if a.Proceed? { ClientKeepsInv(s, a); }
    else if a.Expire? { ExpiryKeepsInv(s, a); }
    else { MessageStepKeepsInv(s, a); }
  }

  lemma {:induction false} EveryRunIsSound(run: seq<State>, i: nat)
    requires Run(run) && i < |run|
    ensures Inv(run[i])
  {
    if i > 0 {
      EveryRunIsSound(run, i - 1);
      assert Next(run[i - 1], run[i]);
      var a :| Enabled(run[i - 1], a) && run[i] == Apply(run[i - 1], a);
      ApplyKeepsInv(run[i - 1], a);
    }
  }
}
