/** The running system as a state machine: any number of queue workers and of API calls over one
    database, one Redis and the queues. Each await of a handler is one step, so steps of
    different workers interleave freely. */
module Machine {
  import opened Domain
  import opened Books
  import opened History
  import opened Retry

  /** A queued message: the job and its x-attempts header. */
  type Message = Envelope<Job>

  // ---------------------------------------------------------------- shared state

  /** What all parties see. `start` and `history` are auxiliary: the wallets the system began
      with, and the events committed since. */
  datatype Shared = Shared(
    start: map<int, Wallet>,
    history: seq<Event>,
    books: Books,
    tickets: map<string, Ticket>,
    cache: map<string, Status>)  // the wallet_request:<txId> entries
  {
    function Origin(): Books {
      Books(start, [])
    }

    /** The committed wallet table as it was after the first k events. */
    function Snapshot(k: nat): map<int, Wallet>
      requires k <= |history|
    {
      At(Origin(), history, k).wallets
    }
  }

  // ---------------------------------------------------------------- queue workers

  /** The await a handler is about to perform. */
  datatype Pc =
    | Lookup | DropStale | PreLog | Validate
    | Begin | ReadFirst | ReadSecond | UpdateFirst | UpdateSecond | WriteTicket | WriteLedger | Commit
    | CacheSuccess | DropLists | Notify
    | MarkFailed | CacheFailed
    | Done(outcome: Outcome)

  /** One running handler. The fields after `won` belong to its $transaction: the rows it read and
      the moments it read them at, and the writes it has made but not committed. A pending write
      on a wallet row is also the row lock. */
  datatype Worker = Worker(
    job: Job, attempts: nat, pc: Pc,
    won: bool,                              // this worker created the ticket row
    fee: int, began: nat,
    first: Option<Wallet>, firstAt: nat,
    second: Option<Wallet>, secondAt: nat,
    writes: map<int, Wallet>, rows: seq<Row>, marked: bool)
  {
    /** What the transaction's own statements see: its writes over the committed rows. */
    function View(sh: Shared): map<int, Wallet> {
      sh.books.wallets + writes
    }
  }

  function NewWorker(m: Message): Worker {
    Worker(m.payload, m.attempts, Lookup, false, 0, 0, None, 0, None, 0, map[], [], false)
  }

  predicate InTransaction(pc: Pc) {
    pc.Begin? || pc.ReadFirst? || pc.ReadSecond? || pc.UpdateFirst? || pc.UpdateSecond?
    || pc.WriteTicket? || pc.WriteLedger? || pc.Commit?
  }

  /** An exception: roll the transaction back and go to the catch block. */
  function Fail(w: Worker): Worker {
    w.(pc := MarkFailed, writes := map[], rows := [], marked := false)
  }

  predicate Terminal(status: Status) {
    status != Pending
  }

  /** update ... where id and version, by a transaction that read the row before. */
  function GuardedBy(view: map<int, Wallet>, id: int, read: Option<Wallet>, delta: int): Option<map<int, Wallet>> {
    if read.None? then None else Guarded(view, id, read.value.version, delta)
  }

  /** Choices a step leaves open: which committed snapshot a read inside the transaction sees
      (any since the transaction began), and which way a fee tie was rounded. */
  predicate Choosable(sh: Shared, w: Worker, snap: nat, fee: int) {
    match w.pc
    case Begin => Chargeable(w.job, fee)
    case ReadFirst => w.began <= snap <= |sh.history|
    case ReadSecond => w.began <= snap <= |sh.history|
    case Done(_) => false
    case _ => true
  }

  predicate Opening(pc: Pc) {
    pc.Lookup? || pc.DropStale? || pc.PreLog? || pc.Validate?
  }

  predicate Ending(pc: Pc) {
    pc.CacheSuccess? || pc.DropLists? || pc.Notify? || pc.MarkFailed? || pc.CacheFailed?
  }

  /** Idempotency check, pre-log, and the check a funding makes before its transaction. */
  function AdvanceOpening(sh: Shared, w: Worker): (Shared, Worker)
    requires Opening(w.pc)
  {
    var t := w.job.txId;
    match w.pc
    case Lookup =>
      if t !in sh.cache then (sh, w.(pc := PreLog))
      else if Terminal(sh.cache[t]) then (sh, w.(pc := Done(Returned)))
      else (sh, w.(pc := DropStale))
    case DropStale =>
      (sh.(cache := sh.cache - {t}), w.(pc := PreLog))
    case PreLog =>
      if t in sh.tickets then (sh, w.(pc := Done(Returned)))
      else (sh.(tickets := sh.tickets[t := Ticket(w.job.Requester(), w.job.currency, Pending)]),
            w.(won := true, pc := if w.job.Fund? then Validate else Begin))
    case Validate =>
      if Owned(Find(sh.books.wallets, w.job.FirstWallet()), w.job.Requester(), w.job.currency)
      then (sh, w.(pc := Begin))
      else (sh, Fail(w))
  }

  /** The statements of the transaction. */
  function AdvanceTransaction(sh: Shared, w: Worker, snap: nat, fee: int): (Shared, Worker)
    requires InTransaction(w.pc) && Choosable(sh, w, snap, fee)
  {
    var t := w.job.txId;
    match w.pc
    case Begin =>
      (sh, w.(pc := ReadFirst, began := |sh.history|, fee := fee))
    case ReadFirst =>
      var read := Find(sh.Snapshot(snap), w.job.FirstWallet());
      var w' := w.(first := read, firstAt := snap);
      if w.job.Transfer? then (sh, w'.(pc := ReadSecond))
      else if w.job.Fund? then (sh, if read.Some? then w'.(pc := UpdateFirst) else Fail(w'))
      else (sh, if Vet(w.job, read, None).Ok? then w'.(pc := UpdateFirst) else Fail(w'))
    case ReadSecond =>
      var read := SecondRead(sh.Snapshot(snap), w.job);
      var w' := w.(second := read, secondAt := snap);
      (sh, if Vet(w.job, w.first, read).Ok? then w'.(pc := UpdateFirst) else Fail(w'))
    case UpdateFirst =>
      var id := w.job.FirstWallet();
      (match GuardedBy(w.View(sh), id, w.first, FirstDelta(w.job, w.fee))
       case None => (sh, Fail(w))
       case Some(view) => (sh, w.(writes := w.writes[id := view[id]],
                                  pc := if w.job.Transfer? then UpdateSecond else WriteTicket)))
    case UpdateSecond =>
      var id := if w.job.Transfer? then w.job.recipientWalletId else 0;
      (match GuardedBy(w.View(sh), id, w.second, w.job.amount)
       case None => (sh, Fail(w))
       case Some(view) => (sh, w.(writes := w.writes[id := view[id]], pc := WriteLedger)))
    case WriteTicket =>
      if t in sh.tickets then (sh, w.(marked := true, pc := if w.job.Transfer? then Commit else WriteLedger))
      else (sh, Fail(w))
    case WriteLedger =>
      if Insertable(sh.books.ledger, RowsOf(w.job, w.fee))
      then (sh, w.(rows := RowsOf(w.job, w.fee), pc := if w.job.Transfer? then WriteTicket else Commit))
      else (sh, Fail(w))
    case Commit =>
      if Insertable(sh.books.ledger, w.rows) && t in sh.tickets
      then (sh.(books := Books(sh.books.wallets + w.writes, sh.books.ledger + w.rows),
                tickets := if w.marked then sh.tickets[t := sh.tickets[t].(status := Success)] else sh.tickets,
                history := sh.history + [Moved(w.job, w.fee)]),
            w.(pc := CacheSuccess, writes := map[], rows := [], marked := false))
      else (sh, Fail(w))
  }

  /** What follows the commit, and the catch block. */
  function AdvanceEnding(sh: Shared, w: Worker): (Shared, Worker)
    requires Ending(w.pc)
  {
    var t := w.job.txId;
    match w.pc
    case CacheSuccess =>
      (sh.(cache := sh.cache[t := Success]), w.(pc := if w.job.Fund? then Notify else DropLists))
    case DropLists =>
      (sh, w.(pc := Notify))
    case Notify =>
      (sh, w.(pc := Done(Returned)))
    case MarkFailed =>
      (if t in sh.tickets then sh.(tickets := sh.tickets[t := sh.tickets[t].(status := Failed)]) else sh,
       w.(pc := CacheFailed))
    case CacheFailed =>
      (sh.(cache := sh.cache[t := Failed]), w.(pc := Done(if w.job.Withdraw? then Returned else Threw)))
  }

  /** The await at w.pc completes. */
  function Advance(sh: Shared, w: Worker, snap: nat, fee: int): (Shared, Worker)
    requires Choosable(sh, w, snap, fee)
  {
    if Opening(w.pc) then AdvanceOpening(sh, w)
    else if InTransaction(w.pc) then AdvanceTransaction(sh, w, snap, fee)
    else AdvanceEnding(sh, w)
  }

  /** The await fails. Inside the catch block the error leaves the handler, whatever the job. */
  function Throw(w: Worker): Worker {
    if w.pc.MarkFailed? || w.pc.CacheFailed? then w.(pc := Done(Threw)) else Fail(w)
  }

  // ---------------------------------------------------------------- API calls

  datatype Call = Create(userId: int, currency: string, createTxId: string) | Request(job: Job)

  datatype Answer = Queued | Duplicate | Created | Errored

  datatype CallPc =
    | Screen | Search | Remember | Publish
    | SearchWallet | InsertWallet | InsertTicket | RememberNew
    | Answered(answer: Answer)

  /** One API call in progress; `seen` is the ticket row it found. */
  datatype Client = Client(call: Call, pc: CallPc, seen: Option<Ticket>)
  {
    function TxId(): string {
      if call.Create? then call.createTxId else call.job.txId
    }
  }

  /** Which cached status makes the call a duplicate: any for a funding, a final one for a
      withdrawal or transfer, success for a wallet creation. */
  predicate Screened(call: Call, status: Status) {
    match call
    case Create(_, _, _) => status == Success
    case Request(job) => job.Fund? || Terminal(status)
  }

  /** Which ticket row makes the call a duplicate. */
  predicate Refused(call: Call, found: Option<Ticket>) {
    found.Some? && (call.Create? ==> found.value.status == Success)
  }

  predicate LiveWalletExists(wallets: map<int, Wallet>, userId: int, currency: string) {
    exists id | id in wallets :: Owned(Some(wallets[id]), userId, currency)
  }

  predicate CanRespond(sh: Shared, c: Client, newId: int) {
    && !c.pc.Answered?
    && (c.pc.Publish? ==> c.call.Request?)
    && (c.pc.InsertWallet? ==> newId !in sh.books.wallets)
  }

  /** One await of an API call. The new wallet's id and creation time come from outside. */
  function Respond(sh: Shared, c: Client, newId: int, at: int): (Shared, Client)
    requires CanRespond(sh, c, newId)
  {
    var t := c.TxId();
    match c.pc
    case Screen =>
      (sh, c.(pc := if t in sh.cache && Screened(c.call, sh.cache[t]) then Answered(Duplicate) else Search))
    case Search =>
      var found := if t in sh.tickets then Some(sh.tickets[t]) else None;
      (sh, c.(seen := found,
              pc := if Refused(c.call, found) then Remember
                    else if c.call.Create? then SearchWallet else CallPc.Publish))
    case Remember =>
      (if c.seen.Some? then sh.(cache := sh.cache[t := c.seen.value.status]) else sh, c.(pc := Answered(Duplicate)))
    case Publish =>
      (sh, c.(pc := Answered(Queued)))
    case SearchWallet =>
      (sh, c.(pc := if c.call.Create? && LiveWalletExists(sh.books.wallets, c.call.userId, c.call.currency)
                    then Answered(Duplicate) else InsertWallet))
    case InsertWallet =>
      if c.call.Create? && Vacant(sh.books.wallets, c.call.userId, c.call.currency)
      then (sh.(books := sh.books.(wallets := sh.books.wallets[newId := NewWallet(c.call.userId, c.call.currency, at)]),
                history := sh.history + [Opened(newId, c.call.userId, c.call.currency, at)]),
            c.(pc := InsertTicket))
      else (sh, c.(pc := Answered(Errored)))
    case InsertTicket =>
      if c.call.Create? && t !in sh.tickets
      then (sh.(tickets := sh.tickets[t := Ticket(c.call.userId, c.call.currency, Success)],
                history := sh.history + [Logged(t)]),
            c.(pc := RememberNew))
      else (sh, c.(pc := Answered(Errored)))
    case RememberNew =>
      (sh.(cache := sh.cache[t := Success]), c.(pc := Answered(Created)))
  }

  // ---------------------------------------------------------------- the whole system

  /** `ready` are queued messages, `unacked` those whose handler returned (they are never
      acknowledged), `dead` the dead-letter queue. `thrown` is auxiliary: the txIds of the
      handler runs that threw, in order. */
  datatype State = State(
    shared: Shared,
    ready: multiset<Message>, unacked: multiset<Message>, dead: multiset<Message>,
    workers: map<int, Worker>, clients: map<int, Client>,
    thrown: seq<string>)

  datatype Action =
    | Deliver(message: Message, wid: int)             // the broker hands out a message
    | Step(wid: int, snap: nat, fee: int)             // a worker's await completes
    | DbAbort(wid: int)                               // the database aborts an open transaction
    | Fault(wid: int, applied: bool, snap: nat, fee: int)  // an await fails, with or without effect
    | Crash(wid: int)                                 // a worker dies; its message is redelivered
    | Retire(wid: int)                                // the handler returned
    | Settle(wid: int, published: bool)               // the handler threw: republish, then ack
    | Redeliver(message: Message)                     // the broker requeues an unacked message
    | Copy(message: Message)                          // the broker duplicates a message
    | Expire(txId: string)                            // a cache entry reaches its TTL
    | Arrive(cid: int, call: Call)
    | Proceed(cid: int, newId: int, at: int)
    | LosePublish(cid: int)                           // sendToQueue swallows a failed publish
    | Hangup(cid: int)

  /** What a no-fault run excludes. */
  predicate Faulty(a: Action) {
    a.Fault? || a.Crash? || a.LosePublish? || (a.Settle? && !a.published)
  }

  /** No other worker holds the row lock. */
  predicate Unlocked(s: State, wid: int, id: int) {
    forall other | other in s.workers && other != wid :: id !in s.workers[other].writes
  }

  predicate Runnable(s: State, wid: int, snap: nat, fee: int) {
    && wid in s.workers
    && var w := s.workers[wid];
    && Choosable(s.shared, w, snap, fee)
    && (w.pc.UpdateFirst? ==> Unlocked(s, wid, w.job.FirstWallet()))
    && (w.pc.UpdateSecond? && w.job.Transfer? ==> Unlocked(s, wid, w.job.recipientWalletId))
  }

  predicate Carries(w: Worker, m: Message) {
    w.job == m.payload && w.attempts == m.attempts
  }

  predicate InFlight(s: State, m: Message) {
    exists wid | wid in s.workers :: Carries(s.workers[wid], m)
  }

  predicate Enabled(s: State, a: Action) {
    match a
    case Deliver(m, wid) => m in s.ready && wid !in s.workers
    case Step(wid, snap, fee) => Runnable(s, wid, snap, fee)
    case DbAbort(wid) => wid in s.workers && InTransaction(s.workers[wid].pc)
    case Fault(wid, _, snap, fee) => Runnable(s, wid, snap, fee)
    case Crash(wid) => wid in s.workers
    case Retire(wid) => wid in s.workers && s.workers[wid].pc == Done(Returned)
    case Settle(wid, _) => wid in s.workers && s.workers[wid].pc == Done(Threw)
    case Redeliver(m) => m in s.unacked
    case Copy(m) => m in s.ready || m in s.unacked || InFlight(s, m)
    case Expire(t) => true
    case Arrive(cid, call) => cid !in s.clients && (call.Request? ==> Admissible(call.job))
    case Proceed(cid, newId, _) => cid in s.clients && CanRespond(s.shared, s.clients[cid], newId)
    case LosePublish(cid) => cid in s.clients && s.clients[cid].pc.Publish?
    case Hangup(cid) => cid in s.clients
  }

  /** Put a worker back after a step, noting a handler run that has just thrown. */
  function Resume(s: State, wid: int, r: (Shared, Worker)): State {
    s.(shared := r.0, workers := s.workers[wid := r.1],
       thrown := if r.1.pc == Done(Threw) then s.thrown + [r.1.job.txId] else s.thrown)
  }

  function Apply(s: State, a: Action): State
    requires Enabled(s, a)
  {
    match a
    case Deliver(m, wid) => s.(ready := s.ready - multiset{m}, workers := s.workers[wid := NewWorker(m)])
    case Step(wid, snap, fee) => Resume(s, wid, Advance(s.shared, s.workers[wid], snap, fee))
    case DbAbort(wid) => Resume(s, wid, (s.shared, Fail(s.workers[wid])))
    case Fault(wid, applied, snap, fee) =>
      var w := s.workers[wid];
      Resume(s, wid, (if applied then Advance(s.shared, w, snap, fee).0 else s.shared, Throw(w)))
    case Crash(wid) =>
      var w := s.workers[wid];
      s.(workers := s.workers - {wid}, ready := s.ready + multiset{Envelope(w.job, w.attempts)})
    case Retire(wid) =>
      var w := s.workers[wid];
      s.(workers := s.workers - {wid}, unacked := s.unacked + multiset{Envelope(w.job, w.attempts)})
    case Settle(wid, published) =>
      var w := s.workers[wid];
      var s' := s.(workers := s.workers - {wid});
      if !published then s'
      else (match AfterThrow(w.attempts)
            case Again(n) => s'.(ready := s.ready + multiset{Envelope(w.job, n)})
            case DeadLetter(n) => s'.(dead := s.dead + multiset{Envelope(w.job, n)}))
    case Redeliver(m) => s.(unacked := s.unacked - multiset{m}, ready := s.ready + multiset{m})
    case Copy(m) => s.(ready := s.ready + multiset{m})
    case Expire(t) => s.(shared := s.shared.(cache := s.shared.cache - {t}))
    case Arrive(cid, call) => s.(clients := s.clients[cid := Client(call, Screen, None)])
    case Proceed(cid, newId, at) =>
      var c := s.clients[cid];
      var (sh, c') := Respond(s.shared, c, newId, at);
      s.(shared := sh, clients := s.clients[cid := c'],
         ready := if c.pc.Publish? then s.ready + multiset{Envelope(c.call.job, 0)} else s.ready)
    case LosePublish(cid) => s.(clients := s.clients[cid := s.clients[cid].(pc := Answered(Queued))])
    case Hangup(cid) => s.(clients := s.clients - {cid})
  }

  /** Any wallets at all, one per user and currency; nothing else yet. */
  ghost predicate Init(s: State) {
    && OneWalletPerCurrency(s.shared.start)
    && s == State(Shared(s.shared.start, [], Books(s.shared.start, []), map[], map[]),
                  multiset{}, multiset{}, multiset{}, map[], map[], [])
  }

  ghost predicate Next(s: State, s': State) {
    exists a :: Enabled(s, a) && s' == Apply(s, a)
  }

  ghost predicate NextNoFault(s: State, s': State) {
    exists a :: Enabled(s, a) && !Faulty(a) && s' == Apply(s, a)
  }

  ghost predicate Run(run: seq<State>) {
    |run| > 0 && Init(run[0]) && forall i :: 0 <= i < |run| - 1 ==> Next(run[i], run[i + 1])
  }

  ghost predicate NoFaultRun(run: seq<State>) {
    |run| > 0 && Init(run[0]) && forall i :: 0 <= i < |run| - 1 ==> NextNoFault(run[i], run[i + 1])
  }
}
