/** What faults do to the two things a client reads: the ticket of a txId and its cache entry. Both can come
    to say "failed" of a job that did not fail; here is exactly when. */
module Faults {
  import opened Domain
  import opened Books
  import opened History
  import opened Retry
  import opened Machine
  import opened AllRuns
  import opened Guarantees
  import opened Handlers
  import opened Solo
  import opened Transparency
  import opened Scenarios
  import NoFault

  // ---------------------------------------------------------------- failed tickets, step by step

  /** A failed ticket means that its txId had no effect. */
  ghost predicate Honest(sh: Shared) {
    forall t | t in sh.tickets :: sh.tickets[t].status == Failed ==> !Spent(sh.history, t)
  }

  /** The step lets a catch block mark a txId failed that has had its effect. */
  predicate Mislabels(s: State, a: Action)
    requires Enabled(s, a)
  {
    && (a.Step? || (a.Fault? && a.applied))
    && s.workers[a.wid].pc.MarkFailed?
    && s.workers[a.wid].job.txId in s.shared.tickets
    && Spent(s.shared.history, s.workers[a.wid].job.txId)
  }

  /** A worker's await writes no ticket but its own; it spends its txId only with a success, and marks it
      failed only in the catch block. */
  predicate TicketWrites(sh: Shared, w: Worker, sh': Shared) {
    var t := w.job.txId;
    && (forall other | other in sh'.tickets && other != t ::
          other in sh.tickets && sh'.tickets[other] == sh.tickets[other])
    && (sh'.history != sh.history ==> t in sh'.tickets && sh'.tickets[t].status == Success && Holding(w.pc))
    && (w.pc.MarkFailed? ==>
          && sh'.tickets == MarkTicket(sh.tickets, t, Failed)
          && sh'.history == sh.history)
    && (!w.pc.MarkFailed? && t in sh'.tickets && sh'.tickets[t].status == Failed ==>
          t in sh.tickets && sh.tickets[t] == sh'.tickets[t])
    && (t in sh.tickets && !w.pc.MarkFailed? && !Holding(w.pc) ==> t in sh'.tickets && sh'.tickets[t] == sh.tickets[t])
  }

  lemma AdvanceWritesTicket(sh: Shared, w: Worker, snap: nat, fee: int)
    requires SharedOk(sh) && WorkerOk(sh, w) && Choosable(sh, w, snap, fee)
    ensures TicketWrites(sh, w, Advance(sh, w, snap, fee).0)
  {
    hide Advance, SharedOk, WorkerOk, TicketWrites;
    if InTransaction(w.pc) { StatementWritesTicket(sh, w, snap, fee); }
    else { OtherWritesTicket(sh, w, snap, fee); }
  }

  lemma StatementWritesTicket(sh: Shared, w: Worker, snap: nat, fee: int)
    requires WorkerOk(sh, w) && Choosable(sh, w, snap, fee) && InTransaction(w.pc)
    ensures TicketWrites(sh, w, Advance(sh, w, snap, fee).0)
  {
    hide Advance, Spent, ReadsOk;
    StatementStep(sh, w, snap, fee);
    if w.pc.Commit? { NoFault.CommitMarksTicket(sh, w, snap, fee); }
  }

  lemma OtherWritesTicket(sh: Shared, w: Worker, snap: nat, fee: int)
    requires Choosable(sh, w, snap, fee) && !InTransaction(w.pc)
    ensures TicketWrites(sh, w, Advance(sh, w, snap, fee).0)
  {
    hide AdvanceTransaction, Owned, Find;
  }

  lemma HonestAdvance(sh: Shared, w: Worker, snap: nat, fee: int)
    requires SharedOk(sh) && WorkerOk(sh, w) && Choosable(sh, w, snap, fee) && Honest(sh)
    ensures Honest(Advance(sh, w, snap, fee).0) <==>
            !(w.pc.MarkFailed? && w.job.txId in sh.tickets && Spent(sh.history, w.job.txId))
  {
    AdvanceWritesTicket(sh, w, snap, fee);
    AdvanceOk(sh, w, snap, fee);
    hide SharedOk, WorkerOk, Advance, Spent;
  }

  lemma RespondIsHonest(sh: Shared, c: Client, newId: int, at: int)
    requires SharedOk(sh) && CanRespond(sh, c, newId) && Honest(sh)
    ensures Honest(Respond(sh, c, newId, at).0)
    ensures NoFault.TicketsKept(sh, Respond(sh, c, newId, at).0)
  {
    RespondOk(sh, c, newId, at);
    hide SharedOk, Spent, Vacant, LiveWalletExists, Later;
  }

  /** A step of any run makes failed tickets dishonest exactly when a catch block marks a txId that has had
      its effect, whether its await then reports success or not. */
  lemma HonestIff(s: State, a: Action)
    requires Inv(s) && Enabled(s, a) && Honest(s.shared)
    ensures Honest(Apply(s, a).shared) <==> !Mislabels(s, a)
  {
    assert SharedOk(s.shared);
    if a.Step? || a.Fault? {
      assert WorkerOk(s.shared, s.workers[a.wid]);
      HonestAdvance(s.shared, s.workers[a.wid], a.snap, a.fee);
      hide Inv, Advance, Honest, Spent, SharedOk, WorkerOk;
    } else if a.Proceed? {
      RespondIsHonest(s.shared, s.clients[a.cid], a.newId, a.at);
      hide Inv, Respond, Honest, Spent, SharedOk;
    } else {
      hide Inv, SharedOk, Spent, Advance, Respond;
    }
  }

  predicate Mislabelled(sh: Shared, txId: string) {
    txId in sh.tickets && sh.tickets[txId].status == Failed && Spent(sh.history, txId)
  }

  lemma SpentStays(h: seq<Event>, longer: seq<Event>, txId: string)
    requires h <= longer && Spent(h, txId)
    ensures Spent(longer, txId)
  {
    var i :| 0 <= i < |h| && Spends(h[i], txId);
    assert Spends(longer[i], txId);
  }

  lemma AdvanceKeepsLabel(sh: Shared, w: Worker, snap: nat, fee: int, txId: string)
    requires SharedOk(sh) && WorkerOk(sh, w) && Choosable(sh, w, snap, fee) && Mislabelled(sh, txId)
    ensures NoFault.Has(Advance(sh, w, snap, fee).0, txId, Failed)
  {
    AdvanceWritesTicket(sh, w, snap, fee);
    AdvanceOk(sh, w, snap, fee);
    assert Holding(w.pc) ==> w.job.txId != txId;
    hide SharedOk, WorkerOk, Advance, Spent;
  }

  /** No step ever repairs such a ticket. */
  lemma MislabelledForGood(s: State, a: Action, txId: string)
    requires Inv(s) && Enabled(s, a) && Mislabelled(s.shared, txId)
    ensures Mislabelled(Apply(s, a).shared, txId)
  {
    HistoryGrowsByOne(s, a);
    SpentStays(s.shared.history, Apply(s, a).shared.history, txId);
    assert SharedOk(s.shared);
    if a.Step? || a.Fault? {
      var w := s.workers[a.wid];
      assert WorkerOk(s.shared, w);
      AdvanceKeepsLabel(s.shared, w, a.snap, a.fee, txId);
    } else if a.Proceed? {
      RespondKeepsTickets(s.shared, s.clients[a.cid], a.newId, a.at);
    }
    hide Inv, Advance, Respond, Spent, SharedOk, WorkerOk, OneMore, Choosable, CanRespond, InFlight, Throw, Fail;
  }

  lemma RespondKeepsTickets(sh: Shared, c: Client, newId: int, at: int)
    requires CanRespond(sh, c, newId)
    ensures NoFault.TicketsKept(sh, Respond(sh, c, newId, at).0)
  {
    hide Vacant, LiveWalletExists;
  }

  lemma MarkMislabels(s: State, wid: int, txId: string)
    requires wid in s.workers && s.workers[wid].pc.MarkFailed? && s.workers[wid].job.txId == txId
    requires txId in s.shared.tickets && Spent(s.shared.history, txId)
    ensures Enabled(s, Step(wid, 0, 0)) && Mislabelled(Apply(s, Step(wid, 0, 0)).shared, txId)
    ensures Apply(s, Step(wid, 0, 0)).shared.books == s.shared.books
  {
    hide Spent, AdvanceOpening, AdvanceTransaction;
  }

  /** A commit whose success is lost on the way back: the worker goes to its catch block with its money moved. */
  lemma LostCommitMislabels(s: State, wid: int, snap: nat, fee: int)
    requires Inv(s) && Enabled(s, Step(wid, snap, fee)) && s.workers[wid].pc.Commit?
    requires Advance(s.shared, s.workers[wid], snap, fee).1.pc.CacheSuccess?
    ensures var lost, mark := Fault(wid, true, snap, fee), Step(wid, 0, 0);
            && Enabled(s, lost) && Enabled(Apply(s, lost), mark)
            && var sh := Apply(Apply(s, lost), mark).shared;
               && sh.books == Advance(s.shared, s.workers[wid], snap, fee).0.books
               && Mislabelled(sh, s.workers[wid].job.txId)
  {
    var sh, w := s.shared, s.workers[wid];
    assert WorkerOk(sh, w);
    NoFault.CommitMarksTicket(sh, w, snap, fee);
    CommitAppends(sh, w, snap, fee);
    SpentAppend(sh.history, Moved(w.job, w.fee), w.job.txId);
    hide Inv, Advance, Spent, WorkerOk, Mislabelled;
    var lost := Fault(wid, true, snap, fee);
    MarkMislabels(Apply(s, lost), wid, w.job.txId);
  }

  lemma CommitAppends(sh: Shared, w: Worker, snap: nat, fee: int)
    requires Choosable(sh, w, snap, fee) && w.pc.Commit? && Advance(sh, w, snap, fee).1.pc.CacheSuccess?
    ensures Advance(sh, w, snap, fee).0.history == sh.history + [Moved(w.job, w.fee)]
  {
    hide Insertable, AdvanceOpening, AdvanceEnding;
  }

  ghost predicate MislabelStep(s: State, s': State) {
    exists a :: Enabled(s, a) && s' == Apply(s, a) && Mislabels(s, a)
  }

  /** Over whole runs: failed means no effect up to now exactly when no catch block so far marked a txId
      that had had its effect. */
  lemma {:induction false} FailedMeansNoEffectIff(run: seq<State>, i: nat)
    requires Run(run) && i < |run|
    ensures Honest(run[i].shared) <==> forall j :: 0 <= j < i ==> !MislabelStep(run[j], run[j + 1])
  {
    hide Inv, Enabled, Apply, Honest, Mislabels;
    if i == 0 {
      StartIsHonest(run[0]);
    } else {
      FailedMeansNoEffectIff(run, i - 1);
      EveryRunIsSound(run, i - 1);
      var s, s' := run[i - 1], run[i];
      assert Next(s, s');
      forall a | Enabled(s, a) && s' == Apply(s, a)
        ensures Honest(s'.shared) <==> Honest(s.shared) && !Mislabels(s, a)
      {
        HonestOnwards(s, a);
      }
    }
  }

  lemma StartIsHonest(s: State)
    requires Init(s)
    ensures Honest(s.shared)
  {
  }

  lemma HonestOnwards(s: State, a: Action)
    requires Inv(s) && Enabled(s, a)
    ensures Honest(Apply(s, a).shared) <==> Honest(s.shared) && !Mislabels(s, a)
  {
    hide Inv, Enabled, Apply, Mislabels, Spent;
    if Honest(s.shared) {
      HonestIff(s, a);
    } else {
      var sh := s.shared;
      var t :| t in sh.tickets && sh.tickets[t].status == Failed && Spent(sh.history, t);
      MislabelledForGood(s, a, t);
    }
  }

  // ---------------------------------------------------------------- failed tickets, one delivery

  /** A delivery of a new txId moves money under a failed ticket exactly when every await through the commit
      succeeds, a later one fails, and the catch block gets to mark the ticket. */
  lemma FreshDeliveryMislabelsIff(w: World, job: Job, fee: int, fails: Failures)
    requires job.txId !in w.tickets
    ensures var after := Handled(w, job, fee, fails).0;
            after.books != w.books && job.txId in after.tickets && after.tickets[job.txId].status == Failed <==>
              && GoesThrough(w, job, fee, fails)
              && (fails.at(CacheSuccess) || (!job.Fund? && fails.at(DropLists)) || fails.at(Notify))
              && !fails.at(MarkFailed)
  {
    hide Serve, TransactionFails, Executed, Caught;
    var w1 := Admitted(w, job, fails).0;
    CaughtKeepsBooks(w1, job, fails);
    if Admitted(w, job, fails).1.Enter? { ExecutedLabel(w1, job, fee, fails); }
  }

  lemma WoundLabel(w: World, job: Job, fails: Failures)
    requires job.txId in w.tickets && w.tickets[job.txId].status == Success
    ensures var after := Wound(w, job, fails).0;
            && after.books == w.books && job.txId in after.tickets
            && (after.tickets[job.txId].status == Failed <==>
                  && (fails.at(CacheSuccess) || (!job.Fund? && fails.at(DropLists)) || fails.at(Notify))
                  && !fails.at(MarkFailed))
  {
  }

  lemma ExecutedLabel(w: World, job: Job, fee: int, fails: Failures)
    requires job.txId in w.tickets
    ensures var after := Executed(w, job, fee, fails).0;
            after.books != w.books && job.txId in after.tickets && after.tickets[job.txId].status == Failed <==>
              && !TransactionFails(job, fails) && Serve(w.books, job, fee).Ok?
              && (fails.at(CacheSuccess) || (!job.Fund? && fails.at(DropLists)) || fails.at(Notify))
              && !fails.at(MarkFailed)
  {
    hide Serve, TransactionFails, RowsOf, Caught, Wound;
    CaughtKeepsBooks(w, job, fails);
    if Serve(w.books, job, fee).Ok? {
      ServedIsLonger(w.books, job, fee);
      WoundLabel(w.(books := Serve(w.books, job, fee).value,
                    tickets := MarkTicket(w.tickets, job.txId, Success)), job, fails);
    }
  }

  /** A repeated delivery of a txId whose ticket says success turns it to failed exactly when it gets past the
      cache, an await of the idempotency check or the pre-log fails, and the catch block gets to mark the ticket. */
  lemma RepeatedDeliveryMislabelsIff(w: World, job: Job, fee: int, fails: Failures)
    requires job.txId in w.tickets && w.tickets[job.txId].status == Success
    ensures var after := Handled(w, job, fee, fails).0;
            && after.books == w.books && job.txId in after.tickets
            && (after.tickets[job.txId].status == Failed <==>
                  && (|| fails.at(Lookup)
                      || (job.txId in w.requests && !Terminal(w.requests[job.txId])
                          && (fails.at(DropStale) || fails.at(PreLog)))
                      || (job.txId !in w.requests && fails.at(PreLog)))
                  && !fails.at(MarkFailed))
  {
    hide Executed;
  }

  // ---------------------------------------------------------------- cache entries without a ticket

  predicate EntriesHaveTickets(w: World) {
    forall t | t in w.requests :: t in w.tickets
  }

  /** A delivery leaves a cache entry that has no ticket exactly when the txId is new, its idempotency check or
      pre-log fails, and the catch block gets to write the entry. */
  lemma EntriesHaveTicketsIff(w: World, job: Job, fee: int, fails: Failures)
    requires EntriesHaveTickets(w)
    ensures EntriesHaveTickets(Handled(w, job, fee, fails).0) <==>
              !(job.txId !in w.tickets && (fails.at(Lookup) || fails.at(PreLog))
                && !fails.at(MarkFailed) && !fails.at(CacheFailed))
  {
    hide Executed, Caught;
    var w1 := Admitted(w, job, fails).0;
    CaughtEntries(w1, job, fails);
    if Admitted(w, job, fails).1.Enter? { ExecutedEntries(w1, job, fee, fails); }
  }

  lemma CaughtEntries(w: World, job: Job, fails: Failures)
    requires EntriesHaveTickets(w)
    ensures EntriesHaveTickets(Caught(w, job, fails).0) <==>
              !(job.txId !in w.tickets && !fails.at(MarkFailed) && !fails.at(CacheFailed))
  {
  }

  lemma ExecutedEntries(w: World, job: Job, fee: int, fails: Failures)
    requires EntriesHaveTickets(w) && job.txId in w.tickets
    ensures EntriesHaveTickets(Executed(w, job, fee, fails).0)
  {
    hide Serve, TransactionFails, Caught;
    CaughtEntries(w, job, fails);
    if Serve(w.books, job, fee).Ok? {
      var posted := w.(books := Serve(w.books, job, fee).value, tickets := MarkTicket(w.tickets, job.txId, Success));
      CaughtEntries(posted, job, fails);
      var cached := posted.(requests := posted.requests[job.txId := Success]);
      CaughtEntries(cached.(lists := cached.lists - StaleLists(job) * fails.dropped), job, fails);
      CaughtEntries(cached.(lists := cached.lists - StaleLists(job)), job, fails);
      CaughtEntries(cached, job, fails);
    }
  }

  /** What such an entry costs: every retry is skipped as long as it lives, though the job would go through. */
  lemma FailedPreLogShows(w: World, job: Job, fee: int, fails: Failures, again: Failures)
    requires EntriesHaveTickets(w) && job.txId !in w.tickets
    requires (fails.at(Lookup) || fails.at(PreLog)) && !fails.at(MarkFailed) && !fails.at(CacheFailed)
    requires Benign(again)
    ensures var after := Handled(w, job, fee, fails).0;
            && after.books == w.books && after.tickets == w.tickets
            && job.txId in after.requests && after.requests[job.txId] == Failed
            && Handled(after, job, fee, again) == (after, Returned)
            && (Serve(w.books, job, fee).Ok? && !TransactionFails(job, again) ==>
                  Ok(Handled(Bare(after, job.txId), job, fee, again).0.books) == Serve(w.books, job, fee))
  {
    assert !again.at(Lookup) && !again.at(DropStale) && !again.at(PreLog) && !again.at(CacheSuccess)
           && !again.at(DropLists) && !again.at(Notify);
    hide Serve, TransactionFails;
  }

  // ---------------------------------------------------------------- cache entries, step by step

  predicate EntriesOk(sh: Shared) {
    forall t | t in sh.cache :: t in sh.tickets
  }

  /** Every cache entry has a ticket, and so does whatever an await is about to cache as a success or as the
      status of a ticket it has found. */
  ghost predicate Backed(s: State) {
    && EntriesOk(s.shared)
    && (forall wid | wid in s.workers ::
          s.workers[wid].pc.CacheSuccess? ==> s.workers[wid].job.txId in s.shared.tickets)
    && (forall cid | cid in s.clients :: ToRemember(s.clients[cid]) ==> s.clients[cid].TxId() in s.shared.tickets)
  }

  predicate ToRemember(c: Client) {
    (c.pc.Remember? && c.seen.Some?) || c.pc.RememberNew?
  }

  /** The step lets a catch block cache a failure for a txId that has no ticket. */
  predicate Unbacks(s: State, a: Action)
    requires Enabled(s, a)
  {
    && (a.Step? || (a.Fault? && a.applied))
    && s.workers[a.wid].pc.CacheFailed?
    && s.workers[a.wid].job.txId !in s.shared.tickets
  }

  /** What an await does to entries and tickets. */
  predicate EntryWrites(sh: Shared, w: Worker, sh': Shared, w': Worker) {
    && sh.tickets.Keys <= sh'.tickets.Keys
    && (forall t | t in sh'.cache :: t in sh.cache || (t == w.job.txId && (w.pc.CacheSuccess? || w.pc.CacheFailed?)))
    && (w.pc.CacheFailed? ==> w.job.txId in sh'.cache && sh'.tickets == sh.tickets)
    && (w'.pc.CacheSuccess? ==> w.job.txId in sh'.tickets)
    && w'.job == w.job
  }

  lemma AdvanceEntries(sh: Shared, w: Worker, snap: nat, fee: int)
    requires Choosable(sh, w, snap, fee)
    ensures var (sh', w') := Advance(sh, w, snap, fee); EntryWrites(sh, w, sh', w')
  {
    hide Advance, EntryWrites;
    if w.pc.Commit? { CommitEntries(sh, w, snap, fee); }
    else if InTransaction(w.pc) { StatementEntries(sh, w, snap, fee); }
    else { OtherEntries(sh, w, snap, fee); }
  }

  lemma StatementEntries(sh: Shared, w: Worker, snap: nat, fee: int)
    requires Choosable(sh, w, snap, fee) && InTransaction(w.pc) && !w.pc.Commit?
    ensures var (sh', w') := Advance(sh, w, snap, fee); EntryWrites(sh, w, sh', w')
  {
    StatementStep(sh, w, snap, fee);
    hide Advance, At;
  }

  lemma CommitEntries(sh: Shared, w: Worker, snap: nat, fee: int)
    requires Choosable(sh, w, snap, fee) && w.pc.Commit?
    ensures var (sh', w') := Advance(sh, w, snap, fee); EntryWrites(sh, w, sh', w')
  {
    hide Insertable, At, AdvanceOpening, AdvanceEnding;
  }

  lemma OtherEntries(sh: Shared, w: Worker, snap: nat, fee: int)
    requires Choosable(sh, w, snap, fee) && !InTransaction(w.pc)
    ensures var (sh', w') := Advance(sh, w, snap, fee); EntryWrites(sh, w, sh', w')
  {
    hide Owned, Find, AdvanceTransaction;
  }

  lemma RespondEntries(sh: Shared, c: Client, newId: int, at: int)
    requires CanRespond(sh, c, newId) && EntriesOk(sh) && (ToRemember(c) ==> c.TxId() in sh.tickets)
    ensures var (sh', c') := Respond(sh, c, newId, at);
            && sh.tickets.Keys <= sh'.tickets.Keys && EntriesOk(sh')
            && (ToRemember(c') ==> c'.TxId() in sh'.tickets)
  {
    hide Vacant, LiveWalletExists;
  }

  lemma BackedResume(s: State, wid: int, r: (Shared, Worker))
    requires Backed(s) && wid in s.workers && s.shared.tickets.Keys <= r.0.tickets.Keys
    requires r.1.pc.CacheSuccess? ==> r.1.job.txId in r.0.tickets
    ensures Backed(Resume(s, wid, r)) <==> EntriesOk(r.0)
  {
    hide EntriesOk;
  }

  lemma BackedProceed(s: State, a: Action)
    requires Backed(s) && Enabled(s, a) && a.Proceed?
    ensures Backed(Apply(s, a))
  {
    RespondEntries(s.shared, s.clients[a.cid], a.newId, a.at);
    hide EntriesOk, Respond, CanRespond;
  }

  lemma EntriesAfter(sh: Shared, w: Worker, snap: nat, fee: int)
    requires Choosable(sh, w, snap, fee) && EntriesOk(sh) && (w.pc.CacheSuccess? ==> w.job.txId in sh.tickets)
    ensures EntriesOk(Advance(sh, w, snap, fee).0) <==> !(w.pc.CacheFailed? && w.job.txId !in sh.tickets)
  {
    AdvanceEntries(sh, w, snap, fee);
    hide Advance;
  }

  lemma BackedWorker(s: State, a: Action)
    requires Backed(s) && Enabled(s, a) && (a.Step? || a.Fault?)
    ensures Backed(Apply(s, a)) <==> !Unbacks(s, a)
  {
    hide Backed, Advance, Choosable, EntriesOk, Resume, Unlocked;
    var w := s.workers[a.wid];
    BackedParts(s, a.wid);
    AdvanceEntries(s.shared, w, a.snap, a.fee);
    EntriesAfter(s.shared, w, a.snap, a.fee);
    var sh' := if a.Step? || a.applied then Advance(s.shared, w, a.snap, a.fee).0 else s.shared;
    var w' := if a.Step? then Advance(s.shared, w, a.snap, a.fee).1 else Throw(w);
    BackedResume(s, a.wid, (sh', w'));
  }

  lemma BackedParts(s: State, wid: int)
    requires Backed(s) && wid in s.workers
    ensures EntriesOk(s.shared)
    ensures s.workers[wid].pc.CacheSuccess? ==> s.workers[wid].job.txId in s.shared.tickets
  {
    hide EntriesOk;
  }

  /** A step of any run leaves a cache entry without a ticket exactly when a catch block writes it. */
  lemma BackedIff(s: State, a: Action)
    requires Backed(s) && Enabled(s, a)
    ensures Backed(Apply(s, a)) <==> !Unbacks(s, a)
  {
    hide Backed, Enabled, Apply;
    if a.Step? || a.Fault? { BackedWorker(s, a); }
    else if a.Proceed? { BackedProceed(s, a); }
    else { BackedElsewhere(s, a); }
  }

  /** Whoever is new or has moved in the meantime is about to cache nothing. */
  predicate NothingToCache(s: State, s': State) {
    && s'.shared == s.shared.(cache := s'.shared.cache) && s'.shared.cache.Keys <= s.shared.cache.Keys
    && (forall wid | wid in s'.workers ::
          (wid in s.workers && s'.workers[wid] == s.workers[wid]) || !s'.workers[wid].pc.CacheSuccess?)
    && (forall cid | cid in s'.clients ::
          (cid in s.clients && s'.clients[cid] == s.clients[cid]) || !ToRemember(s'.clients[cid]))
  }

  lemma MessagesCacheNothing(s: State, a: Action)
    requires Enabled(s, a) && !a.Step? && !a.Fault? && !a.Proceed?
    ensures NothingToCache(s, Apply(s, a))
  {
    hide Enabled, Apply, NothingToCache;
    if a.DbAbort? || a.Deliver? { WorkersCacheNothing(s, a); }
    else if a.Crash? || a.Retire? || a.Settle? { LeaversCacheNothing(s, a); }
    else { OthersCacheNothing(s, a); }
  }

  lemma WorkersCacheNothing(s: State, a: Action)
    requires Enabled(s, a) && (a.DbAbort? || a.Deliver?)
    ensures NothingToCache(s, Apply(s, a))
  {
    hide ToRemember;
  }

  lemma LeaversCacheNothing(s: State, a: Action)
    requires Enabled(s, a) && (a.Crash? || a.Retire? || a.Settle?)
    ensures NothingToCache(s, Apply(s, a))
  {
    hide ToRemember, AfterThrow;
  }

  lemma OthersCacheNothing(s: State, a: Action)
    requires Enabled(s, a) && !a.Step? && !a.Fault? && !a.Proceed?
    requires !a.DbAbort? && !a.Crash? && !a.Retire? && !a.Settle? && !a.Deliver?
    ensures NothingToCache(s, Apply(s, a))
  {
    hide InFlight;
  }

  lemma BackedElsewhere(s: State, a: Action)
    requires Backed(s) && Enabled(s, a) && !a.Step? && !a.Fault? && !a.Proceed?
    ensures Backed(Apply(s, a))
  {
    hide Enabled, Apply, ToRemember;
    MessagesCacheNothing(s, a);
  }

  ghost predicate UnbackStep(s: State, s': State) {
    exists a :: Enabled(s, a) && s' == Apply(s, a) && Unbacks(s, a)
  }

  /** Until the first such step of a run every cached status has a ticket. */
  lemma {:induction false} EntriesHaveTicketsUntil(run: seq<State>, i: nat)
    requires Run(run) && i < |run|
    requires forall j :: 0 <= j < i ==> !UnbackStep(run[j], run[j + 1])
    ensures Backed(run[i])
  {
    hide Enabled, Apply, Unbacks;
    if i > 0 {
      EntriesHaveTicketsUntil(run, i - 1);
      var s, s' := run[i - 1], run[i];
      assert Next(s, s') && !UnbackStep(s, s');
      var a :| Enabled(s, a) && s' == Apply(s, a);
      BackedIff(s, a);
    }
  }

  // ---------------------------------------------------------------- runs that get there

  lemma AdvanceHistory(sh: Shared, w: Worker, snap: nat, fee: int)
    requires Choosable(sh, w, snap, fee)
    ensures var (sh', w') := Advance(sh, w, snap, fee);
            || (sh'.history == sh.history && sh'.books == sh.books)
            || (w.pc.Commit? && w'.pc.CacheSuccess? && sh'.history == sh.history + [Moved(w.job, w.fee)])
  {
    if InTransaction(w.pc) {
      hide At, Vet, Insertable, GuardedBy, RowsOf, Find, SecondRead, AdvanceOpening, AdvanceEnding;
    } else {
      hide Owned, Find, AdvanceTransaction;
    }
  }

  /** An uninterrupted worker that changes the books has spent its txId. */
  lemma {:induction false} AloneSpends(sh: Shared, w: Worker, fee: int, fails: Failures)
    requires Chargeable(w.job, fee) && w.began <= |sh.history|
    ensures var sh' := Alone(sh, w, fee, fails).0;
            && sh.history <= sh'.history
            && (sh'.books == sh.books || Spent(sh'.history, w.job.txId))
    decreases Remaining(w)
  {
    AloneStep(sh, w, fee, fails);
    hide Alone, Advance, Chargeable, Remaining, Spent;
    if !w.pc.Done? && fails.at(w.pc) {
      ThrowShrinks(w);
      AloneSpends(sh, Throw(w), fee, fails);
    } else if !w.pc.Done? {
      var (sh1, w1) := Advance(sh, w, |sh.history|, fee);
      AdvanceHistory(sh, w, |sh.history|, fee);
      AloneSpends(sh1, w1, fee, fails);
      if sh1.history != sh.history {
        SpentAppend(sh.history, Moved(w.job, w.fee), w.job.txId);
        SpentStays(sh1.history, Alone(sh1, w1, fee, fails).0.history, w.job.txId);
      }
    }
  }

  /** No await fails, and only one does. */
  function NoFailures(): Failures {
    Failures(pc => false, {})
  }

  function Only(pc: Pc): Failures {
    Failures(other => other == pc, {})
  }

  /** A fresh system in which the job has been requested and delivered to one worker, alone. */
  lemma FirstDelivery(wallets: map<int, Wallet>, job: Job, fee: int, fails: Failures) returns (s: State)
    requires OneWalletPerCurrency(wallets) && Admissible(job) && Chargeable(job, fee)
    ensures Reached(s) && s.workers.Keys >= {0} && OnlyLocker(s, 0) && s.workers[0].job == job
    ensures Agree((s.shared, s.workers[0]), Handled(World(Books(wallets, []), map[], map[], map[]), job, fee, fails))
    ensures s.shared.books != Books(wallets, []) ==> Spent(s.shared.history, job.txId)
  {
    hide OneWalletPerCurrency, Reached, Leads, Chargeable, Alone, Handled, Spent, Inv, SharedOk, Agree;
    var s0 := Beginning(wallets);
    StartsReached(wallets);
    var s1 := RequestQueues(s0, 0, job);
    s := DeliversAlone(s1, Envelope(job, 0), 0, fee, fails);
    ReachedOn(s0, s1);
    ReachedOn(s1, s);
    ReachedIsSound(s1);
    SoundIsShared(s1);
    WorkerIsHandler(s1.shared, Envelope(job, 0), fee, fails, map[]);
    AloneSpends(s1.shared, NewWorker(Envelope(job, 0)), fee, fails);
  }

  lemma LateFailureEnds(w: World, job: Job, fee: int)
    requires job.txId !in w.tickets && job.txId !in w.requests && Serve(w.books, job, fee).Ok?
    ensures var late := Handled(w, job, fee, Only(Notify)).0;
            && Ok(late.books) == Serve(w.books, job, fee) && late.books != w.books
            && job.txId in late.tickets && late.tickets[job.txId].status == Failed
  {
    hide Serve, Handled;
    FreshDeliveryMislabelsIff(w, job, fee, Only(Notify));
    DeliveryMovesIff(w, job, fee, Only(Notify));
  }

  lemma SmoothDeliveryEnds(w: World, job: Job, fee: int)
    requires job.txId !in w.tickets && job.txId !in w.requests && Serve(w.books, job, fee).Ok?
    ensures var (smooth, outcome) := Handled(w, job, fee, NoFailures());
            && Ok(smooth.books) == Serve(w.books, job, fee) && smooth.books != w.books && outcome == Returned
            && job.txId in smooth.tickets && smooth.tickets[job.txId].status == Success
  {
    hide Serve, Caught;
    ServedIsLonger(w.books, job, fee);
  }

  lemma PreLogFailureEnds(w: World, job: Job, fee: int)
    requires job.txId !in w.tickets && job.txId !in w.requests
    ensures var after := Handled(w, job, fee, Only(PreLog)).0;
            && after.books == w.books && job.txId !in after.tickets
            && job.txId in after.requests && after.requests[job.txId] == Failed
  {
    hide Serve, Executed;
  }

  /** An error after the commit: for every job that would go through there is a run at whose end its money has
      moved and its ticket says failed. */
  lemma ErrorAfterCommitMislabels(wallets: map<int, Wallet>, job: Job, fee: int) returns (s: State)
    requires OneWalletPerCurrency(wallets) && Admissible(job) && Chargeable(job, fee)
    requires Serve(Books(wallets, []), job, fee).Ok?
    ensures Reached(s) && Ok(s.shared.books) == Serve(Books(wallets, []), job, fee)
    ensures Mislabelled(s.shared, job.txId)
  {
    hide OneWalletPerCurrency, Reached, Chargeable, Serve, Spent, OnlyLocker, Handled, Admissible;
    s := FirstDelivery(wallets, job, fee, Only(Notify));
    LateFailureEnds(World(Books(wallets, []), map[], map[], map[]), job, fee);
  }

  /** A failing pre-log: a run at whose end the cache says failed of a txId that has no ticket. */
  lemma EntryWithoutTicket(wallets: map<int, Wallet>, job: Job, fee: int) returns (s: State)
    requires OneWalletPerCurrency(wallets) && Admissible(job) && Chargeable(job, fee)
    ensures Reached(s) && s.shared.books == Books(wallets, [])
    ensures job.txId in s.shared.cache && s.shared.cache[job.txId] == Failed && job.txId !in s.shared.tickets
  {
    hide OneWalletPerCurrency, Reached, Chargeable, Spent, OnlyLocker, Handled, Admissible;
    s := FirstDelivery(wallets, job, fee, Only(PreLog));
    PreLogFailureEnds(World(Books(wallets, []), map[], map[], map[]), job, fee);
  }

  /** A repeated delivery: the job succeeds, its message, never acknowledged, comes back, and its cache lookup
      fails. Its ticket, and its entry, now say failed. */
  lemma RepeatedDeliveryMislabels(wallets: map<int, Wallet>, job: Job, fee: int) returns (s: State)
    requires OneWalletPerCurrency(wallets) && Admissible(job) && Chargeable(job, fee)
    requires Serve(Books(wallets, []), job, fee).Ok?
    ensures Reached(s) && Ok(s.shared.books) == Serve(Books(wallets, []), job, fee)
    ensures Mislabelled(s.shared, job.txId) && job.txId in s.shared.cache && s.shared.cache[job.txId] == Failed
  {
    hide OneWalletPerCurrency, Reached, Chargeable, Serve, Spent, OnlyLocker, Handled, Admissible;
    var s1 := FirstDelivery(wallets, job, fee, NoFailures());
    SmoothDeliveryEnds(World(Books(wallets, []), map[], map[], map[]), job, fee);
    s := SecondDelivery(s1, job, fee);
  }

  lemma LookupFailureEnds(w: World, job: Job, fee: int)
    requires job.txId in w.tickets
    ensures var after := Handled(w, job, fee, Only(Lookup)).0;
            && after.books == w.books
            && job.txId in after.tickets && after.tickets[job.txId].status == Failed
            && job.txId in after.requests && after.requests[job.txId] == Failed
  {
    hide Executed;
  }

  lemma SecondDelivery(s: State, job: Job, fee: int) returns (s': State)
    requires Reached(s) && 0 in s.workers && OnlyLocker(s, 0) && s.workers[0].pc == Done(Returned)
    requires s.workers[0].job == job && Chargeable(job, fee)
    requires NoFault.Has(s.shared, job.txId, Success) && Spent(s.shared.history, job.txId)
    ensures Reached(s') && s'.shared.books == s.shared.books
    ensures Mislabelled(s'.shared, job.txId) && job.txId in s'.shared.cache && s'.shared.cache[job.txId] == Failed
  {
    hide Reached, Leads, Chargeable, Alone, Spent, Inv, SharedOk, Admissible, Handled, OnlyLocker;
    var s1, m := ComesBack(s, 0);
    s' := DeliversAlone(s1, m, 0, fee, Only(Lookup));
    ReachedOn(s1, s');
    ReachedIsSound(s1);
    SoundIsShared(s1);
    SoundMessage(s1, m);
    WorkerIsHandler(s1.shared, m, fee, Only(Lookup), map[]);
    LookupFailureEnds(Around(s1.shared, map[]), job, fee);
    AloneSpends(s1.shared, NewWorker(m), fee, Only(Lookup));
    SpentStays(s1.shared.history, s'.shared.history, job.txId);
  }

  /** A message whose handler returned is never acknowledged, so the broker can deliver it again. */
  lemma ComesBack(s: State, wid: int) returns (s': State, m: Message)
    requires Reached(s) && wid in s.workers && OnlyLocker(s, wid) && s.workers[wid].pc == Done(Returned)
    ensures Reached(s') && s'.shared == s.shared && wid !in s'.workers && OnlyLocker(s', wid)
    ensures m in s'.ready && m.payload == s.workers[wid].job
  {
    hide Reached, Leads;
    m := Envelope(s.workers[wid].job, s.workers[wid].attempts);
    StepLeads(s, Retire(wid));
    var s1 := Apply(s, Retire(wid));
    StepLeads(s1, Redeliver(m));
    s' := Apply(s1, Redeliver(m));
    ReachedOn(s, s1);
    ReachedOn(s1, s');
  }

  lemma SoundMessage(s: State, m: Message)
    requires Inv(s) && m in s.ready
    ensures Admissible(m.payload)
  {
    hide SharedOk, WorkerOk, Apart;
  }
}
