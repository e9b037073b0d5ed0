/** The idempotency cache in front of the tickets: it is lossy, and in no-fault runs nobody can tell. */
module Transparency {
  import opened Domain
  import opened History
  import opened Machine
  import opened AllRuns
  import opened NoFault
  import opened Handlers

  /** The same world after the entry has expired. */
  function Bare(w: World, txId: string): World {
    w.(requests := w.requests - {txId})
  }

  /** Same tables, same outcome; the cache may differ. */
  predicate SameResult<R(==)>(a: (World, R), b: (World, R)) {
    a.0.books == b.0.books && a.0.tickets == b.0.tickets && a.1 == b.1
  }

  /** A delivery cannot tell whether the entry is there, exactly when a final entry has a ticket. */
  lemma DeliveryTransparentIff(w: World, job: Job, fee: int, fails: Failures)
    requires Benign(fails)
    ensures SameResult(Handled(w, job, fee, fails), Handled(Bare(w, job.txId), job, fee, fails))
            && Admitted(w, job, fails).1 == Admitted(Bare(w, job.txId), job, fails).1
            <==> (job.txId in w.requests && Terminal(w.requests[job.txId]) ==> job.txId in w.tickets)
  {
    assert !fails.at(Lookup) && !fails.at(DropStale) && !fails.at(PreLog);
    var bare := Bare(w, job.txId);
    assert bare.requests - {job.txId} == bare.requests;
    hide Executed;
  }

  /** Likewise a request to fund, withdraw or transfer, when a screening entry has a ticket. */
  lemma RequestTransparentIff(w: World, job: Job)
    ensures SameResult(Requested(w, job), Requested(Bare(w, job.txId), job))
            <==> (job.txId in w.requests && Screened(Request(job), w.requests[job.txId]) ==> job.txId in w.tickets)
  {
  }

  /** And a wallet creation, when a success entry has a success ticket. */
  lemma CreationTransparent(w: World, userId: int, currency: string, txId: string, newId: int, at: int)
    requires newId !in w.books.wallets
    requires txId in w.requests && w.requests[txId] == Success ==> Succeeded(w, txId)
    ensures SameResult(CreatedWallet(w, userId, currency, txId, newId, at),
                       CreatedWallet(Bare(w, txId), userId, currency, txId, newId, at))
  {
    hide LiveWalletExists, Vacant;
  }

  predicate Succeeded(w: World, txId: string) {
    txId in w.tickets && w.tickets[txId].status == Success
  }

  /** The shared state of a run, seen by a handler or call that now runs alone. */
  function Seen(s: State, lists: map<int, seq<Listed>>): World {
    World(s.shared.books, s.shared.tickets, s.shared.cache, lists)
  }

  /** Cache transparency: in every reachable state of every no-fault run, every delivery and every API
      call does to the tables, and answers, what it would if its cache entry had expired. */
  lemma CacheIsTransparent(run: seq<State>, i: nat, lists: map<int, seq<Listed>>, job: Job, fee: int, fails: Failures)
    requires NoFaultRun(run) && i < |run| && Benign(fails)
    ensures var w := Seen(run[i], lists);
            && SameResult(Handled(w, job, fee, fails), Handled(Bare(w, job.txId), job, fee, fails))
            && Admitted(w, job, fails).1 == Admitted(Bare(w, job.txId), job, fails).1
            && SameResult(Requested(w, job), Requested(Bare(w, job.txId), job))
  {
    EveryNoFaultRunIsCalm(run, i);
    var w := Seen(run[i], lists);
    assert job.txId in w.requests ==> Agrees(run[i].shared, job.txId, w.requests[job.txId]);
    hide Run, NoFaultRun, Inv, Calm, Handled, Admitted, Requested;
    DeliveryTransparentIff(w, job, fee, fails);
    RequestTransparentIff(w, job);
  }

  lemma CreationCacheIsTransparent(run: seq<State>, i: nat, lists: map<int, seq<Listed>>,
                                   userId: int, currency: string, txId: string, newId: int, at: int)
    requires NoFaultRun(run) && i < |run| && newId !in run[i].shared.books.wallets
    ensures SameResult(CreatedWallet(Seen(run[i], lists), userId, currency, txId, newId, at),
                       CreatedWallet(Bare(Seen(run[i], lists), txId), userId, currency, txId, newId, at))
  {
    EveryNoFaultRunIsCalm(run, i);
    var w := Seen(run[i], lists);
    assert txId in w.requests ==> Agrees(run[i].shared, txId, w.requests[txId]);
    hide Run, NoFaultRun, Inv, Calm, CreatedWallet;
    CreationTransparent(w, userId, currency, txId, newId, at);
  }
}
