/** Runs without faults: cache calls, the pre-log, the catch blocks and publishes all succeed and no
    worker crashes. Validation failures, version conflicts, duplicate references, database aborts,
    cache expiry, redelivery and duplicate deliveries still happen. */
module NoFault {
  import opened Domain
  import opened Books
  import opened History
  import opened Retry
  import opened Machine
  import opened AllRuns

  // ---------------------------------------------------------------- the invariant

  predicate Has(sh: Shared, txId: string, status: Status) {
    txId in sh.tickets && sh.tickets[txId].status == status
  }

  /** What a status seen earlier still says about the ticket: a final one is still the ticket's. */
  predicate Agrees(sh: Shared, txId: string, seen: Status) {
    txId in sh.tickets && (Terminal(seen) ==> sh.tickets[txId].status == seen)
  }

  ghost predicate SharedCalm(sh: Shared) {
    && (forall t | t in sh.cache :: Agrees(sh, t, sh.cache[t]))
    && (forall t | t in sh.tickets :: sh.tickets[t].status == Failed ==> !Spent(sh.history, t))
  }

  /** Retry headers: zero until the txId has thrown, at most one afterwards. */
  predicate CalmHeader(thrown: seq<string>, txId: string, attempts: nat) {
    attempts <= 1 && (txId !in thrown ==> attempts == 0)
  }

  /** Only the winner of a ticket changes it, from pending to one final status. */
  predicate WorkerCalm(sh: Shared, thrown: seq<string>, w: Worker) {
    var t := w.job.txId;
    && CalmHeader(thrown, t, w.attempts)
    && (Holding(w.pc) || w.pc.MarkFailed? ==> w.won && Has(sh, t, Pending))
    && (w.pc.CacheFailed? ==> w.won && Has(sh, t, Failed))
    && (w.pc.CacheSuccess? || w.pc.DropLists? || w.pc.Notify? ==> w.won && Has(sh, t, Success))
    && (w.pc == Done(Threw) ==> w.won && t in thrown && w.attempts == 0)
    && (w.won && w.pc != Done(Threw) ==> t !in thrown)
  }

  predicate ClientCalm(sh: Shared, c: Client) {
    && (c.pc.Remember? && c.seen.Some? ==> Agrees(sh, c.TxId(), c.seen.value.status))
    && (c.pc.RememberNew? ==> Has(sh, c.TxId(), Success))
  }

  ghost predicate ThrownOk(sh: Shared, thrown: seq<string>) {
    && (forall i, j :: 0 <= i < j < |thrown| ==> thrown[i] != thrown[j])
    && (forall t | t in thrown :: Has(sh, t, Failed))
  }

  ghost predicate Calm(s: State) {
    && SharedCalm(s.shared)
    && ThrownOk(s.shared, s.thrown)
    && (forall wid | wid in s.workers :: WorkerCalm(s.shared, s.thrown, s.workers[wid]))
    && (forall cid | cid in s.clients :: ClientCalm(s.shared, s.clients[cid]))
    && CalmQueues(s)
  }

  predicate CalmHeaders(ms: multiset<Message>, thrown: seq<string>) {
    forall m | m in ms :: CalmHeader(thrown, m.payload.txId, m.attempts)
  }

  predicate CalmQueues(s: State) {
    && CalmHeaders(s.ready, s.thrown) && CalmHeaders(s.unacked, s.thrown)
    && s.dead == multiset{}
  }

  // ---------------------------------------------------------------- steps

  /** Tickets only move from pending to a final status, and only the one named moves. */
  predicate TicketsMove(sh: Shared, sh': Shared, mover: string) {
    forall t | t in sh.tickets ::
      && t in sh'.tickets
      && (t != mover || Terminal(sh.tickets[t].status) ==> sh'.tickets[t] == sh.tickets[t])
  }

  function ThrownAfter(thrown: seq<string>, w: Worker): seq<string> {
    if w.pc == Done(Threw) then thrown + [w.job.txId] else thrown
  }

  ghost predicate CalmStep(sh: Shared, thrown: seq<string>, w: Worker, r: (Shared, Worker)) {
    && SharedCalm(r.0)
    && ThrownOk(r.0, ThrownAfter(thrown, r.1))
    && WorkerCalm(r.0, ThrownAfter(thrown, r.1), r.1)
    && TicketsMove(sh, r.0, w.job.txId)
    && (r.0.tickets == sh.tickets || r.1.won)
    && (r.1.pc == Done(Threw) ==> r.1.won)
  }

  lemma CalmOpening(sh: Shared, thrown: seq<string>, w: Worker, snap: nat, fee: int)
    requires SharedCalm(sh) && ThrownOk(sh, thrown) && WorkerCalm(sh, thrown, w) && Choosable(sh, w, snap, fee)
    requires WorkerOk(sh, w) && (w.pc.Lookup? || w.pc.DropStale? || w.pc.Validate?)
    ensures CalmStep(sh, thrown, w, Advance(sh, w, snap, fee))
  {
    hide Spent, ReadsOk, WritesOk, Vet, At, Owned, AdvanceTransaction, AdvanceEnding;
  }

  lemma CalmStatement(sh: Shared, thrown: seq<string>, w: Worker, snap: nat, fee: int)
    requires SharedCalm(sh) && ThrownOk(sh, thrown) && WorkerCalm(sh, thrown, w) && Choosable(sh, w, snap, fee)
    requires InTransaction(w.pc) && (!w.pc.Commit? || Advance(sh, w, snap, fee).1.pc.MarkFailed?)
    ensures CalmStep(sh, thrown, w, Advance(sh, w, snap, fee))
  {
    StatementStep(sh, w, snap, fee);
    hide Advance, SharedCalm, ThrownOk, At;
  }

  lemma CalmWinding(sh: Shared, thrown: seq<string>, w: Worker, snap: nat, fee: int)
    requires SharedCalm(sh) && ThrownOk(sh, thrown) && WorkerCalm(sh, thrown, w) && Choosable(sh, w, snap, fee)
    requires w.pc.CacheSuccess? || w.pc.DropLists? || w.pc.Notify?
    ensures CalmStep(sh, thrown, w, Advance(sh, w, snap, fee))
  {
    hide Spent, AdvanceTransaction, AdvanceOpening;
  }

  lemma CalmPreLog(sh: Shared, thrown: seq<string>, w: Worker, snap: nat, fee: int)
    requires SharedCalm(sh) && ThrownOk(sh, thrown) && WorkerCalm(sh, thrown, w) && Choosable(sh, w, snap, fee)
    requires TicketsOk(sh) && w.pc.PreLog?
    ensures CalmStep(sh, thrown, w, Advance(sh, w, snap, fee))
  {
    hide Spent, AdvanceTransaction, AdvanceEnding;
  }

  lemma CalmMark(sh: Shared, thrown: seq<string>, w: Worker, snap: nat, fee: int)
    requires SharedCalm(sh) && ThrownOk(sh, thrown) && WorkerCalm(sh, thrown, w) && Choosable(sh, w, snap, fee)
    requires TicketsOk(sh) && w.pc.MarkFailed?
    ensures CalmStep(sh, thrown, w, Advance(sh, w, snap, fee))
  {
    hide Spent, AdvanceTransaction, AdvanceOpening;
  }

  lemma CalmCacheFailed(sh: Shared, thrown: seq<string>, w: Worker, snap: nat, fee: int)
    requires SharedCalm(sh) && ThrownOk(sh, thrown) && WorkerCalm(sh, thrown, w) && Choosable(sh, w, snap, fee)
    requires w.pc.CacheFailed?
    ensures CalmStep(sh, thrown, w, Advance(sh, w, snap, fee))
  {
    hide Spent, AdvanceTransaction, AdvanceOpening;
  }

  lemma CommitMarksTicket(sh: Shared, w: Worker, snap: nat, fee: int)
    requires Choosable(sh, w, snap, fee) && WritesOk(sh, w) && w.pc.Commit?
    ensures var (sh', w') := Advance(sh, w, snap, fee);
            && sh'.cache == sh.cache
            && (w'.pc.CacheSuccess? ==>
                  && w.job.txId in sh.tickets
                  && sh'.tickets == sh.tickets[w.job.txId := sh.tickets[w.job.txId].(status := Success)])
  {
    hide Insertable, RowsOf, AdvanceOpening, AdvanceEnding;
  }

  lemma CalmCommit(sh: Shared, thrown: seq<string>, w: Worker, snap: nat, fee: int)
    requires SharedCalm(sh) && ThrownOk(sh, thrown) && WorkerCalm(sh, thrown, w) && Choosable(sh, w, snap, fee)
    requires SharedOk(sh) && WorkerOk(sh, w) && w.pc.Commit?
    ensures CalmStep(sh, thrown, w, Advance(sh, w, snap, fee))
  {
    StatementStep(sh, w, snap, fee);
    CommitStep(sh, w, snap, fee);
    CommitMarksTicket(sh, w, snap, fee);
    var (sh', w') := Advance(sh, w, snap, fee);
    hide SharedOk, WorkerOk, Advance, SharedCalm, ThrownOk, WorkerCalm, Spent;
    if w'.pc.MarkFailed? {
      CalmStatement(sh, thrown, w, snap, fee);
    } else {
      CalmSuccess(sh, thrown, w, sh', w');
    }
  }

  lemma CalmSuccess(sh: Shared, thrown: seq<string>, w: Worker, sh': Shared, w': Worker)
    requires SharedCalm(sh) && ThrownOk(sh, thrown) && WorkerCalm(sh, thrown, w) && w.pc.Commit? && w'.pc.CacheSuccess?
    requires w'.job == w.job && w'.attempts == w.attempts && w'.won == w.won
    requires sh'.cache == sh.cache && w.job.txId in sh.tickets
    requires sh'.tickets == sh.tickets[w.job.txId := sh.tickets[w.job.txId].(status := Success)]
    requires forall t :: Spent(sh'.history, t) && t != w.job.txId ==> Spent(sh.history, t)
    ensures CalmStep(sh, thrown, w, (sh', w'))
  {
    hide Spent;
  }

  lemma CalmAdvance(sh: Shared, thrown: seq<string>, w: Worker, snap: nat, fee: int)
    requires SharedCalm(sh) && ThrownOk(sh, thrown) && WorkerCalm(sh, thrown, w) && Choosable(sh, w, snap, fee)
    requires SharedOk(sh) && WorkerOk(sh, w)
    ensures CalmStep(sh, thrown, w, Advance(sh, w, snap, fee))
  {
    assert TicketsOk(sh);
    hide SharedCalm, ThrownOk, WorkerCalm, SharedOk, WorkerOk, CalmStep, Advance, TicketsOk;
    match w.pc
    case PreLog => CalmPreLog(sh, thrown, w, snap, fee);
    case MarkFailed => CalmMark(sh, thrown, w, snap, fee);
    case CacheFailed => CalmCacheFailed(sh, thrown, w, snap, fee);
    case Commit => CalmCommit(sh, thrown, w, snap, fee);
    case _ =>
      if InTransaction(w.pc) { CalmStatement(sh, thrown, w, snap, fee); }
      else if Opening(w.pc) { CalmOpening(sh, thrown, w, snap, fee); }
      else { CalmWinding(sh, thrown, w, snap, fee); }
  }

  /** The parties that did not move are as calm as before. */
  lemma CalmElsewhere(s: State, wid: int, r: (Shared, Worker))
    requires Inv(s) && Calm(s) && wid in s.workers && CalmStep(s.shared, s.thrown, s.workers[wid], r)
    requires r.1.job == s.workers[wid].job
    requires r.1.won && !s.workers[wid].won ==> r.1.job.txId !in s.shared.tickets
    ensures Calm(Resume(s, wid, r))
  {
    hide SharedCalm, ThrownOk, SharedOk, ReadsOk, WritesOk, Spent;
    var w := s.workers[wid];
    var thrown' := ThrownAfter(s.thrown, r.1);
    forall other | other in s.workers && other != wid ensures WorkerCalm(r.0, thrown', s.workers[other]) {
      assert Apart(w, s.workers[other]);
      assert WorkerOk(s.shared, s.workers[other]);
      assert WorkerCalm(s.shared, s.thrown, s.workers[other]);
    }
    forall cid | cid in s.clients ensures ClientCalm(r.0, s.clients[cid]) {
      assert ClientCalm(s.shared, s.clients[cid]);
    }
  }

  lemma CalmWorkerStep(s: State, a: Action)
    requires Inv(s) && Calm(s) && Enabled(s, a) && (a.Step? || a.DbAbort?)
    ensures Calm(Apply(s, a))
    ensures forall t | t in s.shared.tickets && Terminal(s.shared.tickets[t].status) ::
              t in Apply(s, a).shared.tickets && Apply(s, a).shared.tickets[t] == s.shared.tickets[t]
  {
    var w := s.workers[a.wid];
    hide SharedOk, SharedCalm, ThrownOk;
    if a.Step? {
      CalmAdvance(s.shared, s.thrown, w, a.snap, a.fee);
      AdvanceOk(s.shared, w, a.snap, a.fee);
      hide Advance, WorkerOk, WorkerCalm, Inv, Calm;
      CalmElsewhere(s, a.wid, Advance(s.shared, w, a.snap, a.fee));
    } else {
      hide ReadsOk, WritesOk, Spent;
      CalmElsewhere(s, a.wid, (s.shared, Fail(w)));
    }
  }

  predicate TicketsKept(sh: Shared, sh': Shared) {
    forall t | t in sh.tickets :: t in sh'.tickets && sh'.tickets[t] == sh.tickets[t]
  }

  lemma CalmRespond(sh: Shared, c: Client, newId: int, at: int)
    requires SharedOk(sh) && SharedCalm(sh) && ClientCalm(sh, c) && CanRespond(sh, c, newId)
    ensures var (sh', c') := Respond(sh, c, newId, at);
            TicketsKept(sh, sh') && SharedCalm(sh') && ClientCalm(sh', c')
  {
    RespondOk(sh, c, newId, at);
    hide SharedOk, Spent, Vacant, LiveWalletExists, Later;
  }

  lemma CalmClientStep(s: State, a: Action)
    requires Inv(s) && Calm(s) && Enabled(s, a) && a.Proceed?
    ensures Calm(Apply(s, a)) && TicketsKept(s.shared, Apply(s, a).shared)
  {
    var c := s.clients[a.cid];
    assert ClientCalm(s.shared, c) && SharedOk(s.shared) && SharedCalm(s.shared);
    hide Inv, SharedOk, SharedCalm, Respond;
    CalmRespond(s.shared, c, a.newId, a.at);
    var s' := Apply(s, a);
    forall wid | wid in s.workers ensures WorkerCalm(s'.shared, s'.thrown, s.workers[wid]) {
      assert WorkerCalm(s.shared, s.thrown, s.workers[wid]);
    }
    forall cid | cid in s'.clients ensures ClientCalm(s'.shared, s'.clients[cid]) {
      if cid != a.cid { assert ClientCalm(s.shared, s.clients[cid]); }
    }
  }

  predicate MessageStep(a: Action) {
    !Faulty(a) && !a.Step? && !a.DbAbort? && !a.Proceed? && !a.Expire?
  }

  /** A message keeps its header, except that the one throwing run of a txId sends its message back
      with header 1. */
  lemma HeadersStayCalm(s: State, a: Action)
    requires Calm(s) && Enabled(s, a) && MessageStep(a)
    ensures CalmQueues(Apply(s, a))
  {
    var t := s.thrown;
    assert CalmQueues(s);
    if a.Settle? || a.Retire? {
      var w := s.workers[a.wid];
      assert WorkerCalm(s.shared, t, w);
      CalmAfter(s.ready, t, Envelope(w.job, w.attempts + 1));
      CalmAfter(s.unacked, t, Envelope(w.job, w.attempts));
      hide Calm, CalmHeaders;
    } else {
      if a.Copy? && InFlight(s, a.message) {
        var wid :| wid in s.workers && Carries(s.workers[wid], a.message);
        assert WorkerCalm(s.shared, t, s.workers[wid]);
      }
      if a.Deliver? || a.Copy? || a.Redeliver? { CalmAfter(s.ready, t, a.message); CalmAfter(s.unacked, t, a.message); }
      hide Calm, CalmHeaders, InFlight, CalmHeader;
    }
  }

  lemma CalmAfter(ms: multiset<Message>, thrown: seq<string>, m: Message)
    requires CalmHeaders(ms, thrown)
    ensures CalmHeaders(ms - multiset{m}, thrown)
    ensures CalmHeader(thrown, m.payload.txId, m.attempts) ==> CalmHeaders(ms + multiset{m}, thrown)
    ensures m in ms ==> CalmHeader(thrown, m.payload.txId, m.attempts)
  {
  }

  /** The workers and calls that were there have not moved, and new ones start. */
  predicate OnlyStarts(s: State, s': State) {
    && s'.shared == s.shared && s'.thrown == s.thrown
    && (forall wid | wid in s'.workers ::
          (wid in s.workers && s'.workers[wid] == s.workers[wid])
          || (exists m | m in s.ready :: s'.workers[wid] == NewWorker(m)))
    && (forall cid | cid in s'.clients ::
          (cid in s.clients && s'.clients[cid] == s.clients[cid])
          || s'.clients[cid] == Client(s'.clients[cid].call, Screen, None))
  }

  lemma MessagesOnlyStart(s: State, a: Action)
    requires Enabled(s, a) && MessageStep(a)
    ensures OnlyStarts(s, Apply(s, a))
  {
    hide NewWorker, Admissible, InFlight, AfterThrow;
  }

  lemma CalmMessages(s: State, a: Action)
    requires Calm(s) && Enabled(s, a) && MessageStep(a)
    ensures Calm(Apply(s, a)) && Apply(s, a).shared == s.shared
  {
    hide SharedCalm, ThrownOk, WorkerCalm, ClientCalm, CalmQueues, CalmHeader, NewWorker, Enabled, Apply;
    HeadersStayCalm(s, a);
    MessagesOnlyStart(s, a);
    var s' := Apply(s, a);
    forall wid | wid in s'.workers ensures WorkerCalm(s'.shared, s'.thrown, s'.workers[wid]) {
      if !(wid in s.workers && s'.workers[wid] == s.workers[wid]) {
        var m :| m in s.ready && s'.workers[wid] == NewWorker(m);
        DeliveredIsCalm(s, m);
        NewWorkerCalm(s.shared, s.thrown, m);
      }
    }
    forall cid | cid in s'.clients ensures ClientCalm(s'.shared, s'.clients[cid]) {
      NewCallCalm(s.shared, s'.clients[cid].call);
    }
  }

  lemma DeliveredIsCalm(s: State, m: Message)
    requires CalmQueues(s) && m in s.ready
    ensures CalmHeader(s.thrown, m.payload.txId, m.attempts)
  {
  }

  lemma NewCallCalm(sh: Shared, call: Call)
    ensures ClientCalm(sh, Client(call, Screen, None))
  {
  }

  lemma NewWorkerCalm(sh: Shared, thrown: seq<string>, m: Message)
    requires CalmHeader(thrown, m.payload.txId, m.attempts)
    ensures WorkerCalm(sh, thrown, NewWorker(m))
  {
  }

  lemma CalmExpiry(s: State, a: Action)
    requires Calm(s) && Enabled(s, a) && a.Expire?
    ensures Calm(Apply(s, a)) && Apply(s, a).shared.tickets == s.shared.tickets
  {
    hide Spent, CalmHeader;
    var s' := Apply(s, a);
    forall wid | wid in s.workers ensures WorkerCalm(s'.shared, s.thrown, s.workers[wid]) {
      assert WorkerCalm(s.shared, s.thrown, s.workers[wid]);
    }
    forall cid | cid in s.clients ensures ClientCalm(s'.shared, s.clients[cid]) {
      assert ClientCalm(s.shared, s.clients[cid]);
    }
  }

  /** Success and failed are final: no step of a no-fault run changes them. */
  lemma CalmApply(s: State, a: Action)
    requires Inv(s) && Calm(s) && Enabled(s, a) && !Faulty(a)
    ensures Calm(Apply(s, a))
    ensures forall t | t in s.shared.tickets && Terminal(s.shared.tickets[t].status) ::
              t in Apply(s, a).shared.tickets && Apply(s, a).shared.tickets[t] == s.shared.tickets[t]
  {
    hide Inv, Calm, Apply, Enabled;
    if a.Step? || a.DbAbort? { CalmWorkerStep(s, a); }
    else if a.Proceed? { CalmClientStep(s, a); }
    else if a.Expire? { CalmExpiry(s, a); }
    else { CalmMessages(s, a); }
  }

  lemma {:induction false} EveryNoFaultRunIsCalm(run: seq<State>, i: nat)
    requires NoFaultRun(run) && i < |run|
    ensures Run(run) && Inv(run[i]) && Calm(run[i])
  {
    NoFaultRunIsRun(run);
    EveryRunIsSound(run, i);
    if i > 0 {
      EveryNoFaultRunIsCalm(run, i - 1);
      assert NextNoFault(run[i - 1], run[i]);
      var a :| Enabled(run[i - 1], a) && !Faulty(a) && run[i] == Apply(run[i - 1], a);
      CalmApply(run[i - 1], a);
    }
  }

  lemma NoFaultRunIsRun(run: seq<State>)
    requires NoFaultRun(run)
    ensures Run(run)
  {
    hide Enabled, Apply;
    forall i | 0 <= i < |run| - 1 ensures Next(run[i], run[i + 1]) {
      assert NextNoFault(run[i], run[i + 1]);
    }
  }

  // ---------------------------------------------------------------- guarantees

  lemma FinalMeans(s: State, txId: string)
    requires Inv(s) && Calm(s) && txId in s.shared.tickets && Terminal(s.shared.tickets[txId].status)
    ensures Spent(s.shared.history, txId) <==> s.shared.tickets[txId].status == Success
  {
    hide WorkerOk, WorkerCalm, ClientCalm, Apart, MessagesOk, Legal, Spent;
  }

  /** Once a ticket says success or failed it says so for ever; failed means the txId had no effect
      and never will, success that it had one. */
  lemma {:induction false} OutcomesAreFinal(run: seq<State>, i: nat, j: nat, txId: string)
    requires NoFaultRun(run) && i <= j < |run|
    requires txId in run[i].shared.tickets && Terminal(run[i].shared.tickets[txId].status)
    ensures txId in run[j].shared.tickets && run[j].shared.tickets[txId] == run[i].shared.tickets[txId]
    ensures Spent(run[j].shared.history, txId) <==> run[i].shared.tickets[txId].status == Success
  {
    hide Inv, Calm, Enabled, Apply, Spent, Run;
    EveryNoFaultRunIsCalm(run, j);
    if i < j {
      OutcomesAreFinal(run, i, j - 1, txId);
      EveryNoFaultRunIsCalm(run, j - 1);
      assert NextNoFault(run[j - 1], run[j]);
      var a :| Enabled(run[j - 1], a) && !Faulty(a) && run[j] == Apply(run[j - 1], a);
      CalmApply(run[j - 1], a);
    }
    FinalMeans(run[j], txId);
  }

  /** A cached status always has a ticket, and a final one is the ticket's. */
  lemma CacheTellsTheTruth(run: seq<State>, i: nat, txId: string)
    requires NoFaultRun(run) && i < |run| && txId in run[i].shared.cache
    ensures txId in run[i].shared.tickets
    ensures Terminal(run[i].shared.cache[txId]) ==> run[i].shared.tickets[txId].status == run[i].shared.cache[txId]
  {
    EveryNoFaultRunIsCalm(run, i);
    assert Agrees(run[i].shared, txId, run[i].shared.cache[txId]);
  }

  /** No txId throws twice, no message carries a header above 1, and nothing is dead-lettered. */
  lemma OneThrowPerTxId(run: seq<State>, i: nat)
    requires NoFaultRun(run) && i < |run|
    ensures forall j, k :: 0 <= j < k < |run[i].thrown| ==> run[i].thrown[j] != run[i].thrown[k]
    ensures forall m | m in run[i].ready || m in run[i].unacked :: m.attempts <= 1
    ensures forall wid | wid in run[i].workers :: run[i].workers[wid].attempts <= 1
    ensures run[i].dead == multiset{}
  {
    EveryNoFaultRunIsCalm(run, i);
  }

  /** After a txId has thrown, every step of every further delivery of it, cached or not, leaves
      wallets, ledger and tickets alone, and no such delivery fails. */
  lemma RetriesAreInert(run: seq<State>, i: nat, wid: int, snap: nat, fee: int)
    requires NoFaultRun(run) && i < |run| && Enabled(run[i], Step(wid, snap, fee))
    requires run[i].workers[wid].job.txId in run[i].thrown
    ensures var s' := Apply(run[i], Step(wid, snap, fee));
            && s'.shared.books == run[i].shared.books
            && s'.shared.tickets == run[i].shared.tickets
            && s'.shared.history == run[i].shared.history
            && s'.thrown == run[i].thrown
            && (s'.workers[wid].pc.DropStale? || s'.workers[wid].pc.PreLog? || s'.workers[wid].pc == Done(Returned))
  {
    EveryNoFaultRunIsCalm(run, i);
    hide Inv, Calm, Run, NoFaultRun, Advance, Choosable;
    ThrownStaysOut(run[i], wid);
    InertStep(run[i].shared, run[i].workers[wid], snap, fee);
  }

  /** A worker of a txId that has thrown is still at its idempotency check or pre-log, and has not won. */
  lemma ThrownStaysOut(s: State, wid: int)
    requires Inv(s) && Calm(s) && wid in s.workers && s.workers[wid].job.txId in s.thrown && !s.workers[wid].pc.Done?
    ensures var w := s.workers[wid]; w.pc.Lookup? || w.pc.DropStale? || w.pc.PreLog?
    ensures Has(s.shared, s.workers[wid].job.txId, Failed)
  {
    assert WorkerOk(s.shared, s.workers[wid]) && WorkerCalm(s.shared, s.thrown, s.workers[wid]);
    hide Inv, SharedOk, ReadsOk, WritesOk, SharedCalm, CalmQueues, Spent;
  }

  lemma InertStep(sh: Shared, w: Worker, snap: nat, fee: int)
    requires Choosable(sh, w, snap, fee) && (w.pc.Lookup? || w.pc.DropStale? || w.pc.PreLog?)
    requires Has(sh, w.job.txId, Failed)
    ensures var (sh', w') := Advance(sh, w, snap, fee);
            && sh'.books == sh.books && sh'.tickets == sh.tickets && sh'.history == sh.history
            && (w'.pc.DropStale? || w'.pc.PreLog? || w'.pc == Done(Returned))
  {
    hide AdvanceTransaction, AdvanceEnding;
  }
}
