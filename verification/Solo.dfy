/** The two layers agree: a worker of the state machine that is never interrupted does exactly what the
    handler does when it runs alone. */
module Solo {
  import opened Domain
  import opened Books
  import opened History
  import opened Machine
  import opened AllRuns
  import opened Handlers

  /** How far a handler is from its end. */
  function Rank(pc: Pc, job: Job): nat {
    match pc
    case Lookup => 18
    case DropStale => 17
    case PreLog => 16
    case Validate => 15
    case Begin => 14
    case ReadFirst => 13
    case ReadSecond => 12
    case UpdateFirst => 11
    case UpdateSecond => 10
    case WriteTicket => if job.Transfer? then 8 else 9
    case WriteLedger => if job.Transfer? then 9 else 8
    case Commit => 7
    case CacheSuccess => 6
    case DropLists => 5
    case Notify => 4
    case MarkFailed => 2
    case CacheFailed => 1
    case Done(_) => 0
  }

  function Remaining(w: Worker): nat {
    Rank(w.pc, w.job)
  }

  /** Let a worker run to its end with no other step in between. */
  function Alone(sh: Shared, w: Worker, fee: int, fails: Failures): (Shared, Worker)
    requires Chargeable(w.job, fee) && w.began <= |sh.history|
    decreases Remaining(w)
  {
    if w.pc.Done? then (sh, w)
    else if fails.at(w.pc) then Alone(sh, Throw(w), fee, fails)
    else
      var (sh', w') := Advance(sh, w, |sh.history|, fee);
      AdvanceShrinks(sh, w, |sh.history|, fee);
      Alone(sh', w', fee, fails)
  }

  lemma AdvanceShrinks(sh: Shared, w: Worker, snap: nat, fee: int)
    requires Choosable(sh, w, snap, fee) && w.began <= |sh.history|
    ensures var (sh', w') := Advance(sh, w, snap, fee);
            Remaining(w') < Remaining(w) && w'.job == w.job && w'.began <= |sh'.history|
  {
    hide Advance, Remaining;
    if InTransaction(w.pc) { TransactionShrinks(sh, w, snap, fee); } else { OutsideShrinks(sh, w, snap, fee); }
  }

  lemma OutsideShrinks(sh: Shared, w: Worker, snap: nat, fee: int)
    requires Choosable(sh, w, snap, fee) && w.began <= |sh.history| && !InTransaction(w.pc)
    ensures var (sh', w') := Advance(sh, w, snap, fee);
            Remaining(w') < Remaining(w) && w'.job == w.job && w'.began <= |sh'.history|
  {
    hide AdvanceOpening, AdvanceTransaction, AdvanceEnding, Remaining;
    if Opening(w.pc) { OpeningShrinks(sh, w); } else { EndingShrinks(sh, w); }
  }

  lemma OpeningShrinks(sh: Shared, w: Worker)
    requires Opening(w.pc)
    ensures var (sh', w') := AdvanceOpening(sh, w);
            Remaining(w') < Remaining(w) && w'.job == w.job && w'.began == w.began && sh'.history == sh.history
  {
    hide Owned, Find;
  }

  lemma EndingShrinks(sh: Shared, w: Worker)
    requires Ending(w.pc)
    ensures var (sh', w') := AdvanceEnding(sh, w);
            Remaining(w') < Remaining(w) && w'.job == w.job && w'.began == w.began && sh'.history == sh.history
  {
  }

  lemma TransactionShrinks(sh: Shared, w: Worker, snap: nat, fee: int)
    requires Choosable(sh, w, snap, fee) && w.began <= |sh.history| && InTransaction(w.pc)
    ensures var (sh', w') := Advance(sh, w, snap, fee);
            Remaining(w') < Remaining(w) && w'.job == w.job && w'.began <= |sh'.history|
  {
    StatementStep(sh, w, snap, fee);
    HistoryOnlyGrows(sh, w, snap, fee);
    hide Advance;
  }

  lemma HistoryOnlyGrows(sh: Shared, w: Worker, snap: nat, fee: int)
    requires Choosable(sh, w, snap, fee) && InTransaction(w.pc)
    ensures |sh.history| <= |Advance(sh, w, snap, fee).0.history|
  {
    hide At, Vet, Insertable, GuardedBy, RowsOf, Find, SecondRead, AdvanceOpening, AdvanceEnding;
  }

  /** One step of such a run. */
  lemma AloneStep(sh: Shared, w: Worker, fee: int, fails: Failures)
    requires Chargeable(w.job, fee) && w.began <= |sh.history|
    ensures w.pc.Done? ==> Alone(sh, w, fee, fails) == (sh, w)
    ensures !w.pc.Done? && fails.at(w.pc) ==> Alone(sh, w, fee, fails) == Alone(sh, Throw(w), fee, fails)
    ensures !w.pc.Done? && !fails.at(w.pc) ==>
              var (sh', w') := Advance(sh, w, |sh.history|, fee);
              && w'.began <= |sh'.history| && w'.job == w.job && Remaining(w') < Remaining(w)
              && Alone(sh, w, fee, fails) == Alone(sh', w', fee, fails)
  {
    if !w.pc.Done? && !fails.at(w.pc) { AdvanceShrinks(sh, w, |sh.history|, fee); }
    hide Advance;
  }

  function Around(sh: Shared, lists: map<int, seq<Listed>>): World {
    World(sh.books, sh.tickets, sh.cache, lists)
  }

  /** A finished worker and a finished handler left the same tables, entries and outcome. */
  predicate Agree(r: (Shared, Worker), x: (World, Outcome)) {
    r.0.books == x.0.books && r.0.tickets == x.0.tickets && r.0.cache == x.0.requests && r.1.pc == Done(x.1)
  }

  lemma CatchSteps(sh: Shared, w: Worker, snap: nat, fee: int)
    requires Choosable(sh, w, snap, fee)
    ensures w.pc.MarkFailed? ==>
              Advance(sh, w, snap, fee) == (sh.(tickets := MarkTicket(sh.tickets, w.job.txId, Failed)),
                                            w.(pc := Pc.CacheFailed))
    ensures w.pc.CacheFailed? ==>
              Advance(sh, w, snap, fee) == (sh.(cache := sh.cache[w.job.txId := Failed]),
                                            w.(pc := Done(if w.job.Withdraw? then Returned else Threw)))
  {
    hide AdvanceOpening, AdvanceTransaction;
  }

  lemma CacheFailedAlone(sh: Shared, w: Worker, fee: int, fails: Failures)
    requires Chargeable(w.job, fee) && w.began <= |sh.history| && w.pc.CacheFailed?
    ensures Alone(sh, w, fee, fails) ==
            if fails.at(Pc.CacheFailed) then (sh, w.(pc := Done(Threw)))
            else (sh.(cache := sh.cache[w.job.txId := Failed]),
                  w.(pc := Done(if w.job.Withdraw? then Returned else Threw)))
  {
    hide Alone, Advance, Chargeable;
    CatchSteps(sh, w, |sh.history|, fee);
    AloneStep(sh, w, fee, fails);
    var (sh1, w1) := if fails.at(Pc.CacheFailed) then (sh, Throw(w)) else Advance(sh, w, |sh.history|, fee);
    AloneStep(sh1, w1, fee, fails);
  }

  lemma CatchAlone(sh: Shared, w: Worker, fee: int, fails: Failures, lists: map<int, seq<Listed>>)
    requires Chargeable(w.job, fee) && w.began <= |sh.history| && w.pc.MarkFailed?
    ensures Agree(Alone(sh, w, fee, fails), Caught(Around(sh, lists), w.job, fails))
  {
    hide Alone, Advance, Chargeable, MarkTicket;
    CatchSteps(sh, w, |sh.history|, fee);
    AloneStep(sh, w, fee, fails);
    if fails.at(Pc.MarkFailed) {
      AloneStep(sh, Throw(w), fee, fails);
    } else {
      var (sh1, w1) := Advance(sh, w, |sh.history|, fee);
      CacheFailedAlone(sh1, w1, fee, fails);
    }
  }

  lemma WindSteps(sh: Shared, w: Worker, snap: nat, fee: int)
    requires Choosable(sh, w, snap, fee)
    ensures w.pc.CacheSuccess? ==>
              Advance(sh, w, snap, fee) == (sh.(cache := sh.cache[w.job.txId := Success]),
                                            w.(pc := if w.job.Fund? then Pc.Notify else Pc.DropLists))
    ensures w.pc.DropLists? ==> Advance(sh, w, snap, fee) == (sh, w.(pc := Pc.Notify))
    ensures w.pc.Notify? ==> Advance(sh, w, snap, fee) == (sh, w.(pc := Done(Returned)))
  {
    hide AdvanceOpening, AdvanceTransaction;
  }

  lemma NotifyAlone(sh: Shared, w: Worker, fee: int, fails: Failures, lists: map<int, seq<Listed>>)
    requires Chargeable(w.job, fee) && w.began <= |sh.history|
    requires w.pc.Notify? || w.pc.DropLists?
    ensures var failing := fails.at(Pc.Notify) || (w.pc.DropLists? && fails.at(Pc.DropLists));
            Agree(Alone(sh, w, fee, fails),
                  if failing then Caught(Around(sh, lists), w.job, fails) else (Around(sh, lists), Returned))
    decreases Remaining(w)
  {
    hide Alone, Advance, Chargeable, Caught;
    AloneStep(sh, w, fee, fails);
    WindSteps(sh, w, |sh.history|, fee);
    if fails.at(w.pc) {
      CatchAlone(sh, Throw(w), fee, fails, lists);
    } else if w.pc.Notify? {
      AloneStep(sh, Advance(sh, w, |sh.history|, fee).1, fee, fails);
    } else {
      NotifyAlone(sh, Advance(sh, w, |sh.history|, fee).1, fee, fails, lists);
    }
  }

  /** The catch block does not look at the wallet lists. */
  lemma CaughtIgnoresLists(r: (Shared, Worker), x: World, job: Job, fails: Failures, lists: map<int, seq<Listed>>)
    requires Agree(r, Caught(x, job, fails))
    ensures Agree(r, Caught(x.(lists := lists), job, fails))
  {
    hide MarkTicket;
  }

  lemma WindAlone(sh: Shared, w: Worker, fee: int, fails: Failures, lists: map<int, seq<Listed>>)
    requires Chargeable(w.job, fee) && w.began <= |sh.history| && w.pc.CacheSuccess?
    ensures Agree(Alone(sh, w, fee, fails), Wound(Around(sh, lists), w.job, fails))
  {
    hide Alone, Advance, Chargeable, Caught;
    AloneStep(sh, w, fee, fails);
    WindSteps(sh, w, |sh.history|, fee);
    if fails.at(w.pc) {
      CatchAlone(sh, Throw(w), fee, fails, lists);
    } else {
      var (sh1, w1) := Advance(sh, w, |sh.history|, fee);
      NotifyAlone(sh1, w1, fee, fails, lists);
      var r, x := Alone(sh1, w1, fee, fails), Around(sh1, lists);
      if fails.at(Pc.Notify) || (w1.pc.DropLists? && fails.at(Pc.DropLists)) {
        CaughtIgnoresLists(r, x, w.job, fails, lists - StaleLists(w.job));
        CaughtIgnoresLists(r, x, w.job, fails, lists - StaleLists(w.job) * fails.dropped);
      }
    }
  }

  /** Some await of the transaction at this rank or later fails. */
  predicate FailsFrom(rank: nat, job: Job, fails: Failures) {
    || (14 <= rank && fails.at(Pc.Begin))
    || (13 <= rank && fails.at(ReadFirst))
    || (12 <= rank && job.Transfer? && fails.at(ReadSecond))
    || (11 <= rank && fails.at(UpdateFirst))
    || (10 <= rank && job.Transfer? && fails.at(UpdateSecond))
    || (Rank(WriteTicket, job) <= rank && fails.at(WriteTicket))
    || (Rank(WriteLedger, job) <= rank && fails.at(WriteLedger))
    || fails.at(Pc.Commit)
  }

  /** The reads of an uninterrupted transaction are still what the tables say. */
  predicate ReadsCurrent(sh: Shared, w: Worker) {
    && (w.pc.ReadSecond? || BothRead(w.pc) ==> w.first == Find(sh.books.wallets, w.job.FirstWallet()))
    && (!w.job.Transfer? ==> w.second.None?)
    && (BothRead(w.pc) ==> w.second == SecondRead(sh.books.wallets, w.job))
  }

  /** From anywhere inside the transaction: commit exactly when no await fails and the job is served. */
  lemma TransactAlone(sh: Shared, w: Worker, fee: int, fails: Failures, lists: map<int, seq<Listed>>)
    requires SharedOk(sh) && WorkerOk(sh, w) && InTransaction(w.pc)
    requires Chargeable(w.job, fee) && (!w.pc.Begin? ==> w.fee == fee) && ReadsCurrent(sh, w)
    ensures var served := Serve(sh.books, w.job, fee);
            var world := Around(sh, lists);
            Agree(Alone(sh, w, fee, fails),
                  if FailsFrom(Remaining(w), w.job, fails) || served.Err? then Caught(world, w.job, fails)
                  else Wound(world.(books := served.value, tickets := MarkTicket(sh.tickets, w.job.txId, Success)),
                             w.job, fails))
    decreases Remaining(w)
  {
    assert w.began <= |sh.history| && Remaining(w) <= 14;
    var (sh1, w1) := Advance(sh, w, |sh.history|, fee);
    FailsHere(w, fails);
    hide Alone, Advance, Caught, Wound, WorkerOk, SharedOk, Serve, StepOk;
    hide ReadsCurrent, FailsFrom, MarkTicket, Remaining;
    AloneStep(sh, w, fee, fails);
    if fails.at(w.pc) {
      CatchAlone(sh, Throw(w), fee, fails, lists);
    } else {
      if w1.pc.MarkFailed? {
        RejectedAlone(sh, w, fee);
        CatchAlone(sh1, w1, fee, fails, lists);
      } else if w.pc.Commit? {
        CommittedAlone(sh, w, fee);
        WindAlone(sh1, w1, fee, fails, lists);
      } else {
        StillCurrent(sh, w, fee, fails);
        TransactAlone(sh1, w1, fee, fails, lists);
      }
    }
  }

  lemma FailsHere(w: Worker, fails: Failures)
    requires InTransaction(w.pc) && (w.pc.ReadSecond? || w.pc.UpdateSecond? ==> w.job.Transfer?)
    ensures fails.at(w.pc) ==> FailsFrom(Remaining(w), w.job, fails)
    ensures w.pc.Commit? ==> (FailsFrom(Remaining(w), w.job, fails) <==> fails.at(w.pc))
  {
  }

  lemma CommittedAlone(sh: Shared, w: Worker, fee: int)
    requires SharedOk(sh) && WorkerOk(sh, w) && w.pc.Commit? && w.fee == fee
    requires !Advance(sh, w, |sh.history|, fee).1.pc.MarkFailed?
    ensures var (sh1, w1) := Advance(sh, w, |sh.history|, fee);
            && Serve(sh.books, w.job, fee) == Ok(sh1.books)
            && sh1.tickets == MarkTicket(sh.tickets, w.job.txId, Success)
            && sh1.cache == sh.cache && w1.pc.CacheSuccess?
  {
    CommitIsServe(sh, w);
    hide Serve, SharedOk, ReadsOk, Spent;
  }

  /** A step that rejects does so because the job, run alone, would be rejected. */
  lemma RejectedAlone(sh: Shared, w: Worker, fee: int)
    requires SharedOk(sh) && WorkerOk(sh, w) && InTransaction(w.pc) && Chargeable(w.job, fee)
    requires (!w.pc.Begin? ==> w.fee == fee) && ReadsCurrent(sh, w)
    requires Advance(sh, w, |sh.history|, fee).1.pc.MarkFailed?
    ensures Serve(sh.books, w.job, fee).Err? && Advance(sh, w, |sh.history|, fee).0 == sh
  {
    hide Advance, Serve, SharedOk, WorkerOk, ReadsCurrent;
    if w.pc.UpdateFirst? || w.pc.UpdateSecond? { RejectedUpdate(sh, w, fee); } else { RejectedStatement(sh, w, fee); }
  }

  lemma RejectedUpdate(sh: Shared, w: Worker, fee: int)
    requires SharedOk(sh) && WorkerOk(sh, w) && InTransaction(w.pc) && Chargeable(w.job, fee)
    requires (!w.pc.Begin? ==> w.fee == fee) && ReadsCurrent(sh, w)
    requires Advance(sh, w, |sh.history|, fee).1.pc.MarkFailed?
    requires w.pc.UpdateFirst? || w.pc.UpdateSecond?
    ensures Serve(sh.books, w.job, fee).Err? && Advance(sh, w, |sh.history|, fee).0 == sh
  {
    assert sh.Snapshot(|sh.history|) == sh.books.wallets;
    hide SharedOk, Spent, At, AdvanceOpening, AdvanceEnding, Insertable, RowsOf;
  }

  lemma RejectedStatement(sh: Shared, w: Worker, fee: int)
    requires SharedOk(sh) && WorkerOk(sh, w) && InTransaction(w.pc) && Chargeable(w.job, fee)
    requires (!w.pc.Begin? ==> w.fee == fee) && ReadsCurrent(sh, w)
    requires Advance(sh, w, |sh.history|, fee).1.pc.MarkFailed?
    requires !w.pc.UpdateFirst? && !w.pc.UpdateSecond?
    ensures Serve(sh.books, w.job, fee).Err? && Advance(sh, w, |sh.history|, fee).0 == sh
  {
    assert sh.Snapshot(|sh.history|) == sh.books.wallets;
    hide SharedOk, Spent, At, AdvanceOpening, AdvanceEnding, GuardedBy, Bump;
  }

  lemma StillCurrent(sh: Shared, w: Worker, fee: int, fails: Failures)
    requires SharedOk(sh) && WorkerOk(sh, w) && InTransaction(w.pc) && !w.pc.Commit? && Chargeable(w.job, fee)
    requires (!w.pc.Begin? ==> w.fee == fee) && ReadsCurrent(sh, w)
    requires !Advance(sh, w, |sh.history|, fee).1.pc.MarkFailed?
    ensures var (sh1, w1) := Advance(sh, w, |sh.history|, fee);
            && sh1 == sh && ReadsCurrent(sh, w1) && w1.fee == fee && w1.job == w.job && InTransaction(w1.pc)
            && WorkerOk(sh, w1)
            && (FailsFrom(Remaining(w), w.job, fails) <==> fails.at(w.pc) || FailsFrom(Remaining(w1), w.job, fails))
  {
    assert w.pc.ReadSecond? || w.pc.UpdateSecond? ==> w.job.Transfer?;
    StepIsOk(sh, w, fee);
    NextFails(sh, w, fee, fails);
    NextReads(sh, w, fee);
    hide Advance, SharedOk, WorkerOk, FailsFrom, ReadsCurrent;
  }

  lemma NextReads(sh: Shared, w: Worker, fee: int)
    requires InTransaction(w.pc) && !w.pc.Commit? && Choosable(sh, w, |sh.history|, fee)
    requires (!w.pc.Begin? ==> w.fee == fee) && ReadsCurrent(sh, w)
    requires w.pc.ReadSecond? || w.pc.UpdateSecond? ==> w.job.Transfer?
    requires sh.books.wallets == sh.Snapshot(|sh.history|)
    requires !Advance(sh, w, |sh.history|, fee).1.pc.MarkFailed?
    ensures var (sh1, w1) := Advance(sh, w, |sh.history|, fee);
            sh1 == sh && ReadsCurrent(sh, w1) && w1.fee == fee && w1.job == w.job && InTransaction(w1.pc)
  {
    StatementStep(sh, w, |sh.history|, fee);
    hide Advance, At, Find;
  }

  lemma StepIsOk(sh: Shared, w: Worker, fee: int)
    requires SharedOk(sh) && WorkerOk(sh, w) && Choosable(sh, w, |sh.history|, fee)
    ensures var (sh1, w1) := Advance(sh, w, |sh.history|, fee); SharedOk(sh1) && WorkerOk(sh1, w1)
  {
    AdvanceOk(sh, w, |sh.history|, fee);
    hide Advance;
  }

  lemma NextFails(sh: Shared, w: Worker, fee: int, fails: Failures)
    requires InTransaction(w.pc) && !w.pc.Commit? && Choosable(sh, w, |sh.history|, fee)
    requires w.pc.ReadSecond? || w.pc.UpdateSecond? ==> w.job.Transfer?
    requires !Advance(sh, w, |sh.history|, fee).1.pc.MarkFailed?
    ensures var w1 := Advance(sh, w, |sh.history|, fee).1;
            FailsFrom(Remaining(w), w.job, fails) <==> fails.at(w.pc) || FailsFrom(Remaining(w1), w.job, fails)
  {
    StatementStep(sh, w, |sh.history|, fee);
    hide Advance, At;
  }

  /** Validation, for a funding, and the transaction. */
  lemma ExecuteAlone(sh: Shared, w: Worker, fee: int, fails: Failures, lists: map<int, seq<Listed>>)
    requires SharedOk(sh) && WorkerOk(sh, w) && Chargeable(w.job, fee) && w.second.None?
    requires w.pc == if w.job.Fund? then Validate else Pc.Begin
    ensures Agree(Alone(sh, w, fee, fails), Executed(Around(sh, lists), w.job, fee, fails))
  {
    assert w.began <= |sh.history|;
    AloneStep(sh, w, fee, fails);
    if w.pc.Begin? {
      BeginAlone(sh, w, fee, fails, lists);
    } else if fails.at(w.pc) {
      CatchAlone(sh, Throw(w), fee, fails, lists);
    } else {
      var w1 := Advance(sh, w, |sh.history|, fee).1;
      AdvanceOk(sh, w, |sh.history|, fee);
      if w1.pc.MarkFailed? { CatchAlone(sh, w1, fee, fails, lists); } else { BeginAlone(sh, w1, fee, fails, lists); }
    }
    hide Alone, Caught, Wound, WorkerOk, SharedOk, StepOk, At, MarkTicket, RowsOf, Guarded, Insertable;
  }

  lemma BeginAlone(sh: Shared, w: Worker, fee: int, fails: Failures, lists: map<int, seq<Listed>>)
    requires SharedOk(sh) && WorkerOk(sh, w) && Chargeable(w.job, fee) && w.second.None? && w.pc.Begin?
    requires w.job.Fund? ==> !fails.at(Validate)
    ensures Agree(Alone(sh, w, fee, fails), Executed(Around(sh, lists), w.job, fee, fails))
  {
    assert ReadsCurrent(sh, w) && w.began <= |sh.history|;
    assert FailsFrom(Remaining(w), w.job, fails) <==> TransactionFails(w.job, fails);
    hide Alone, Caught, Wound, WorkerOk, SharedOk, Serve, FailsFrom, TransactionFails, MarkTicket;
    TransactAlone(sh, w, fee, fails, lists);
  }

  lemma HandledUncached(x: World, job: Job, fee: int, fails: Failures)
    requires job.txId !in x.requests && !fails.at(Lookup)
    ensures Handled(x, job, fee, fails) ==
            if fails.at(PreLog) then Caught(x, job, fails)
            else if job.txId in x.tickets then (x, Returned)
            else Executed(x.(tickets := x.tickets[job.txId := Ticket(job.Requester(), job.currency, Pending)]),
                          job, fee, fails)
  {
    hide Caught, Executed;
    assert x.requests - {job.txId} == x.requests;
  }

  lemma PreLogAlone(sh: Shared, w: Worker, fee: int, fails: Failures, lists: map<int, seq<Listed>>)
    requires SharedOk(sh) && WorkerOk(sh, w) && Chargeable(w.job, fee) && w.second.None? && w.pc.PreLog?
    requires w.job.txId !in sh.cache && !fails.at(Lookup)
    ensures Agree(Alone(sh, w, fee, fails), Handled(Around(sh, lists), w.job, fee, fails))
  {
    assert w.began <= |sh.history|;
    hide Alone, Caught, Executed, Handled, WorkerOk, SharedOk, Owned, AdvanceTransaction, AdvanceEnding;
    HandledUncached(Around(sh, lists), w.job, fee, fails);
    var (sh1, w1) := Advance(sh, w, |sh.history|, fee);
    StepIsOk(sh, w, fee);
    AloneStep(sh, w, fee, fails);
    if fails.at(PreLog) {
      CatchAlone(sh, Throw(w), fee, fails, lists);
    } else if w1.pc.Done? {
      AloneStep(sh1, w1, fee, fails);
    } else {
      ExecuteAlone(sh1, w1, fee, fails, lists);
    }
  }

  /** A delivery run alone by a worker ends as the handler specification says. */
  lemma WorkerIsHandler(sh: Shared, m: Message, fee: int, fails: Failures, lists: map<int, seq<Listed>>)
    requires SharedOk(sh) && Admissible(m.payload) && Chargeable(m.payload, fee)
    ensures Agree(Alone(sh, NewWorker(m), fee, fails), Handled(Around(sh, lists), m.payload, fee, fails))
  {
    var w := NewWorker(m);
    assert WorkerOk(sh, w);
    hide Alone, Caught, Executed, WorkerOk, SharedOk, AdvanceTransaction, AdvanceEnding;
    AloneStep(sh, w, fee, fails);
    if fails.at(Lookup) {
      CatchAlone(sh, Throw(w), fee, fails, lists);
    } else {
      var (sh1, w1) := Advance(sh, w, |sh.history|, fee);
      AdvanceOk(sh, w, |sh.history|, fee);
      assert WorkerOk(sh1, w1) by { assert StepOk(sh, w, (sh1, w1)); }
      AloneStep(sh1, w1, fee, fails);
      if w1.pc.PreLog? {
        PreLogAlone(sh1, w1, fee, fails, lists);
      } else if w1.pc.DropStale? {
        DropAlone(sh1, w1, fee, fails, lists);
      }
    }
  }

  lemma BeganBefore(sh: Shared, w: Worker)
    requires WorkerOk(sh, w)
    ensures w.began <= |sh.history|
  {
    hide WritesOk, Spent, Vet, At;
  }

  lemma DropAlone(sh: Shared, w: Worker, fee: int, fails: Failures, lists: map<int, seq<Listed>>)
    requires SharedOk(sh) && WorkerOk(sh, w) && Chargeable(w.job, fee) && w.second.None? && w.pc.DropStale?
    requires w.job.txId in sh.cache && !Terminal(sh.cache[w.job.txId]) && !fails.at(Lookup)
    ensures Agree(Alone(sh, w, fee, fails), Handled(Around(sh, lists), w.job, fee, fails))
  {
    hide Alone, Caught, Executed, Handled, WorkerOk, SharedOk, Chargeable, Advance;
    BeganBefore(sh, w);
    StepIsOk(sh, w, fee);
    DropStep(sh, w, |sh.history|, fee);
    HandledStale(Around(sh, lists), w.job, fee, fails);
    var (sh1, w1) := Advance(sh, w, |sh.history|, fee);
    AloneStep(sh, w, fee, fails);
    if fails.at(DropStale) {
      CatchAlone(sh, Throw(w), fee, fails, lists);
    } else {
      PreLogAlone(sh1, w1, fee, fails, lists);
    }
  }

  lemma DropStep(sh: Shared, w: Worker, snap: nat, fee: int)
    requires Choosable(sh, w, snap, fee) && w.pc.DropStale?
    ensures Advance(sh, w, snap, fee) == (sh.(cache := sh.cache - {w.job.txId}), w.(pc := PreLog))
  {
    hide AdvanceTransaction, AdvanceEnding;
  }

  lemma HandledStale(x: World, job: Job, fee: int, fails: Failures)
    requires job.txId in x.requests && !Terminal(x.requests[job.txId]) && !fails.at(Lookup)
    ensures Handled(x, job, fee, fails) ==
            if fails.at(DropStale) then Caught(x, job, fails)
            else Handled(x.(requests := x.requests - {job.txId}), job, fee, fails)
  {
    hide Caught, Executed;
    assert x.requests - {job.txId} - {job.txId} == x.requests - {job.txId};
  }

  /** No worker but this one holds a row lock. */
  predicate OnlyLocker(s: State, wid: int) {
    forall other | other in s.workers && other != wid :: s.workers[other].writes == map[]
  }

  /** The action by which the state machine takes the next step of an uninterrupted worker. */
  function NextAction(s: State, wid: int, fee: int, fails: Failures): Action
    requires wid in s.workers
  {
    if fails.at(s.workers[wid].pc) then Fault(wid, false, |s.shared.history|, fee)
    else Step(wid, |s.shared.history|, fee)
  }

  lemma NextActionEnabled(s: State, wid: int, fee: int, fails: Failures)
    requires wid in s.workers && !s.workers[wid].pc.Done? && Chargeable(s.workers[wid].job, fee)
    requires s.workers[wid].began <= |s.shared.history| && OnlyLocker(s, wid)
    ensures var w := s.workers[wid];
            && Enabled(s, NextAction(s, wid, fee, fails))
            && Apply(s, NextAction(s, wid, fee, fails))
               == Resume(s, wid, if fails.at(w.pc) then (s.shared, Throw(w))
                                 else Advance(s.shared, w, |s.shared.history|, fee))
  {
    hide Advance, Throw, Chargeable, Resume;
    assert Choosable(s.shared, s.workers[wid], |s.shared.history|, fee);
  }

  lemma OneStepOn(s: State, wid: int, fee: int, fails: Failures) returns (s': State)
    requires wid in s.workers && !s.workers[wid].pc.Done? && Chargeable(s.workers[wid].job, fee)
    requires s.workers[wid].began <= |s.shared.history| && OnlyLocker(s, wid)
    ensures Next(s, s') && wid in s'.workers && OnlyLocker(s', wid)
    ensures s'.workers[wid].job == s.workers[wid].job && s'.workers[wid].began <= |s'.shared.history|
    ensures Remaining(s'.workers[wid]) < Remaining(s.workers[wid])
    ensures Alone(s'.shared, s'.workers[wid], fee, fails) == Alone(s.shared, s.workers[wid], fee, fails)
  {
    hide Alone, Advance, Enabled, Apply, NextAction, Chargeable, Throw, Next, Remaining;
    var w := s.workers[wid];
    AloneStep(s.shared, w, fee, fails);
    NextActionEnabled(s, wid, fee, fails);
    ThrowShrinks(w);
    ActionIsNext(s, NextAction(s, wid, fee, fails));
    s' := Apply(s, NextAction(s, wid, fee, fails));
  }

  lemma ThrowShrinks(w: Worker)
    requires !w.pc.Done?
    ensures Throw(w).job == w.job && Throw(w).began == w.began
    ensures Remaining(Throw(w)) < Remaining(w)
  {
  }

  lemma ActionIsNext(s: State, a: Action)
    requires Enabled(s, a)
    ensures Next(s, Apply(s, a))
  {
    hide Enabled, Apply;
  }

  /** Such a run is a run of the system: when no other worker holds a row lock, the steps of the state
      machine lead from here to its end. */
  lemma {:induction false} AloneIsPossible(s: State, wid: int, fee: int, fails: Failures) returns (trace: seq<State>)
    requires wid in s.workers && Chargeable(s.workers[wid].job, fee)
    requires s.workers[wid].began <= |s.shared.history| && OnlyLocker(s, wid)
    ensures Path(trace) && trace[0] == s && wid in trace[|trace| - 1].workers
    ensures var last := trace[|trace| - 1];
            && Alone(s.shared, s.workers[wid], fee, fails) == (last.shared, last.workers[wid])
            && last.workers[wid].job == s.workers[wid].job && OnlyLocker(last, wid)
    decreases Remaining(s.workers[wid])
  {
    hide Next, OnlyLocker, Chargeable, Path, Remaining;
    if s.workers[wid].pc.Done? {
      AloneStep(s.shared, s.workers[wid], fee, fails);
      PathOf(s);
      trace := [s];
    } else {
      hide Alone;
      var s' := OneStepOn(s, wid, fee, fails);
      var rest := AloneIsPossible(s', wid, fee, fails);
      NonEmpty(rest);
      PathFrom(s, rest);
      trace := [s] + rest;
    }
  }

  lemma PathOf(s: State)
    ensures Path([s])
  {
  }

  lemma NonEmpty(trace: seq<State>)
    requires Path(trace)
    ensures |trace| > 0
  {
  }

  ghost predicate Path(trace: seq<State>) {
    |trace| > 0 && forall i :: 0 <= i < |trace| - 1 ==> Next(trace[i], trace[i + 1])
  }

  lemma PathFrom(s: State, rest: seq<State>)
    requires Path(rest) && Next(s, rest[0])
    ensures Path([s] + rest)
  {
    hide Next;
  }

  // ---------------------------------------------------------------- API calls

  /** At most this many awaits of a call, with no other step in between. */
  function CallAlone(sh: Shared, c: Client, newId: int, at: int, awaits: nat): (Shared, Client)
    decreases awaits
  {
    if awaits == 0 || !CanRespond(sh, c, newId) then (sh, c)
    else
      var (sh', c') := Respond(sh, c, newId, at);
      CallAlone(sh', c', newId, at, awaits - 1)
  }

  predicate AgreeCall(r: (Shared, Client), x: (World, Answer)) {
    r.0.books == x.0.books && r.0.tickets == x.0.tickets && r.0.cache == x.0.requests && r.1.pc == Answered(x.1)
  }

  lemma CallStep(sh: Shared, c: Client, newId: int, at: int, awaits: nat)
    requires CanRespond(sh, c, newId) && awaits > 0
    ensures var (sh', c') := Respond(sh, c, newId, at);
            CallAlone(sh, c, newId, at, awaits) == CallAlone(sh', c', newId, at, awaits - 1)
  {
    hide Respond;
  }

  /** A request to fund, withdraw or transfer answers within three awaits as the front end does. */
  lemma RequestIsHandler(sh: Shared, job: Job, newId: int, at: int, lists: map<int, seq<Listed>>)
    ensures AgreeCall(CallAlone(sh, Client(Request(job), Screen, None), newId, at, 3),
                      Requested(Around(sh, lists), job))
  {
    hide CallAlone, Vacant, LiveWalletExists;
    var c := Client(Request(job), Screen, None);
    CallStep(sh, c, newId, at, 3);
    var c1 := Respond(sh, c, newId, at).1;
    if !c1.pc.Answered? {
      CallStep(sh, c1, newId, at, 2);
      var c2 := Respond(sh, c1, newId, at).1;
      CallStep(sh, c2, newId, at, 1);
      var (sh3, c3) := Respond(sh, c2, newId, at);
      CallDone(sh3, c3, newId, at, 0);
    } else {
      CallDone(sh, c1, newId, at, 2);
    }
  }

  lemma CallDone(sh: Shared, c: Client, newId: int, at: int, awaits: nat)
    requires c.pc.Answered?
    ensures CallAlone(sh, c, newId, at, awaits) == (sh, c)
  {
  }

  /** And a wallet creation within six. */
  lemma CreationIsHandler(sh: Shared, userId: int, currency: string, txId: string, newId: int, at: int,
                          lists: map<int, seq<Listed>>)
    requires newId !in sh.books.wallets
    ensures AgreeCall(CallAlone(sh, Client(Create(userId, currency, txId), Screen, None), newId, at, 6),
                      CreatedWallet(Around(sh, lists), userId, currency, txId, newId, at))
  {
    hide CallAlone, Vacant, LiveWalletExists;
    var c := Client(Create(userId, currency, txId), Screen, None);
    CallStep(sh, c, newId, at, 6);
    var c1 := Respond(sh, c, newId, at).1;
    if c1.pc.Answered? { CallDone(sh, c1, newId, at, 5); return; }
    CallStep(sh, c1, newId, at, 5);
    var c2 := Respond(sh, c1, newId, at).1;
    if c2.pc.SearchWallet? { InsertionAlone(sh, c2, newId, at, lists); return; }
    CallStep(sh, c2, newId, at, 4);
    var (sh3, c3) := Respond(sh, c2, newId, at);
    CallDone(sh3, c3, newId, at, 3);
  }

  /** What is left of a wallet creation that was neither screened nor refused. */
  lemma InsertionAlone(sh: Shared, c: Client, newId: int, at: int, lists: map<int, seq<Listed>>)
    requires newId !in sh.books.wallets && c.call.Create? && c.pc.SearchWallet?
    requires !(c.TxId() in sh.cache && Screened(c.call, sh.cache[c.TxId()]))
    requires !Refused(c.call, TicketOf(sh.tickets, c.TxId()))
    ensures AgreeCall(CallAlone(sh, c, newId, at, 4),
                      CreatedWallet(Around(sh, lists), c.call.userId, c.call.currency, c.TxId(), newId, at))
  {
    hide CallAlone, Vacant, LiveWalletExists, Screened, Refused;
    CallStep(sh, c, newId, at, 4);
    var c3 := Respond(sh, c, newId, at).1;
    if c3.pc.Answered? { CallDone(sh, c3, newId, at, 3); return; }
    CallStep(sh, c3, newId, at, 3);
    var (sh4, c4) := Respond(sh, c3, newId, at);
    if c4.pc.Answered? { CallDone(sh4, c4, newId, at, 2); return; }
    CallStep(sh4, c4, newId, at, 2);
    var (sh5, c5) := Respond(sh4, c4, newId, at);
    if c5.pc.Answered? { CallDone(sh5, c5, newId, at, 1); return; }
    CallStep(sh5, c5, newId, at, 1);
    var (sh6, c6) := Respond(sh5, c5, newId, at);
    CallDone(sh6, c6, newId, at, 0);
  }
}
