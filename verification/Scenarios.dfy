/** Building runs of the system: what can be reached from where. */
module Scenarios {
  import opened Domain
  import opened Books
  import opened History
  import opened Retry
  import opened Machine
  import opened AllRuns
  import opened Handlers
  import opened Solo

  /** Some steps lead from one state to the other. */
  ghost predicate Leads(s: State, s': State) {
    exists trace :: Path(trace) && trace[0] == s && trace[|trace| - 1] == s'
  }

  ghost predicate Reached(s: State) {
    exists run :: Run(run) && run[|run| - 1] == s
  }

  lemma StepLeads(s: State, a: Action)
    requires Enabled(s, a)
    ensures Leads(s, Apply(s, a))
  {
    hide Enabled, Apply;
    var trace := [s, Apply(s, a)];
    assert Next(trace[0], trace[1]);
    assert Path(trace);
  }

  lemma LeadsOn(a: State, b: State, c: State)
    requires Leads(a, b) && Leads(b, c)
    ensures Leads(a, c)
  {
    hide Next;
    var first :| Path(first) && first[0] == a && first[|first| - 1] == b;
    var second :| Path(second) && second[0] == b && second[|second| - 1] == c;
    var whole := first + second[1..];
    forall i | 0 <= i < |whole| - 1 ensures Next(whole[i], whole[i + 1]) {
      if i >= |first| - 1 { assert Next(second[i - |first| + 1], second[i - |first| + 2]); }
    }
    assert Path(whole);
  }

  lemma PathLeads(trace: seq<State>)
    requires Path(trace)
    ensures Leads(trace[0], trace[|trace| - 1])
  {
    hide Path;
  }

  lemma StartIsReached(s: State, s': State)
    requires Init(s) && Leads(s, s')
    ensures Reached(s')
  {
    hide Init, Next;
    var trace :| Path(trace) && trace[0] == s && trace[|trace| - 1] == s';
    assert Run(trace);
  }

  lemma ReachedIsSound(s: State)
    requires Reached(s)
    ensures Inv(s)
  {
    hide Inv;
    var run :| Run(run) && run[|run| - 1] == s;
    EveryRunIsSound(run, |run| - 1);
  }

  lemma SoundIsShared(s: State)
    requires Inv(s)
    ensures SharedOk(s.shared)
  {
  }

  lemma ReachedOn(s: State, s': State)
    requires Reached(s) && Leads(s, s')
    ensures Reached(s')
  {
    hide Init, Next;
    var run :| Run(run) && run[|run| - 1] == s;
    assert Path(run);
    PathLeads(run);
    LeadsOn(run[0], s, s');
    StartIsReached(run[0], s');
  }

  /** The state a run begins with. */
  function Beginning(wallets: map<int, Wallet>): State {
    State(Shared(wallets, [], Books(wallets, []), map[], map[]), multiset{}, multiset{}, multiset{}, map[], map[], [])
  }

  lemma StartsReached(wallets: map<int, Wallet>)
    requires OneWalletPerCurrency(wallets)
    ensures Reached(Beginning(wallets))
  {
    hide OneWalletPerCurrency;
    var s := Beginning(wallets);
    assert Run([s]) && [s][|[s]| - 1] == s;
  }

  /** The three awaits of a request for a txId that nobody has used. */
  lemma NewRequest(sh: Shared, job: Job)
    requires job.txId !in sh.cache && job.txId !in sh.tickets
    ensures var c := Client(Request(job), Screen, None);
            var c1, c2 := c.(pc := Search), c.(pc := CallPc.Publish);
            && CanRespond(sh, c, 0) && Respond(sh, c, 0, 0) == (sh, c1)
            && CanRespond(sh, c1, 0) && Respond(sh, c1, 0, 0) == (sh, c2)
            && CanRespond(sh, c2, 0) && Respond(sh, c2, 0, 0) == (sh, c.(pc := Answered(Queued)))
  {
  }

  /** Such a request gets its message queued. */
  lemma RequestQueues(s: State, cid: int, job: Job) returns (s': State)
    requires cid !in s.clients && Admissible(job)
    requires job.txId !in s.shared.cache && job.txId !in s.shared.tickets
    ensures Leads(s, s') && s'.clients.Keys == s.clients.Keys + {cid}
    ensures s' == s.(ready := s.ready + multiset{Envelope(job, 0)}, clients := s'.clients)
  {
    hide Leads, Respond, CanRespond, Admissible;
    NewRequest(s.shared, job);
    var arrive, proceed := Arrive(cid, Request(job)), Proceed(cid, 0, 0);
    StepLeads(s, arrive);
    var s1 := Apply(s, arrive);
    StepLeads(s1, proceed);
    var s2 := Apply(s1, proceed);
    StepLeads(s2, proceed);
    var s3 := Apply(s2, proceed);
    StepLeads(s3, proceed);
    s' := Apply(s3, proceed);
    hide Apply, Enabled;
    LeadsOn(s, s1, s2);
    LeadsOn(s, s2, s3);
    LeadsOn(s, s3, s');
  }

  /** A waiting message can be delivered to a worker that is never interrupted. */
  lemma DeliversAlone(s: State, m: Message, wid: int, fee: int, fails: Failures) returns (s': State)
    requires m in s.ready && wid !in s.workers && OnlyLocker(s, wid) && Chargeable(m.payload, fee)
    ensures Leads(s, s') && wid in s'.workers && OnlyLocker(s', wid)
    ensures Alone(s.shared, NewWorker(m), fee, fails) == (s'.shared, s'.workers[wid])
    ensures s'.workers[wid].job == m.payload
  {
    hide Leads, Alone, Path;
    var deliver := Action.Deliver(m, wid);
    StepLeads(s, deliver);
    var s1 := Apply(s, deliver);
    var trace := AloneIsPossible(s1, wid, fee, fails);
    NonEmpty(trace);
    s' := trace[|trace| - 1];
    PathLeads(trace);
    LeadsOn(s, s1, s');
  }

  // ---------------------------------------------------------------- what nobody can prevent

  /** At any time a worker may crash, its message may be duplicated, and its open transaction be aborted, which
      sends it to its catch block with nothing written. */
  lemma WorkersAreAtRisk(s: State, wid: int)
    requires wid in s.workers
    ensures Enabled(s, Crash(wid))
    ensures Enabled(s, Copy(Envelope(s.workers[wid].job, s.workers[wid].attempts)))
    ensures Apply(s, Crash(wid)).workers == s.workers - {wid} && Apply(s, Crash(wid)).shared == s.shared
    ensures InTransaction(s.workers[wid].pc) ==>
              && Enabled(s, DbAbort(wid))
              && Apply(s, DbAbort(wid)).shared == s.shared
              && Apply(s, DbAbort(wid)).workers ==
                 s.workers[wid := s.workers[wid].(pc := MarkFailed, writes := map[], rows := [], marked := false)]
  {
    assert Carries(s.workers[wid], Envelope(s.workers[wid].job, s.workers[wid].attempts));
  }

  /** The broker may deliver or duplicate any waiting message, and redeliver or duplicate any message whose handler
      has returned. */
  lemma BrokerIsFree(s: State, m: Message, wid: int)
    ensures m in s.ready ==> Enabled(s, Copy(m)) && (wid !in s.workers ==> Enabled(s, Action.Deliver(m, wid)))
    ensures m in s.unacked ==> Enabled(s, Copy(m)) && Enabled(s, Redeliver(m))
  {
    hide InFlight;
  }

  /** Any entry may expire, any caller hang up, any publish fail, and any call arrive that carries at least a cent
      where the request validation asks for one. */
  lemma CallersAreFree(s: State, cid: int, call: Call, txId: string)
    ensures Enabled(s, Expire(txId))
    ensures cid in s.clients ==>
              && Enabled(s, Hangup(cid)) && Apply(s, Hangup(cid)) == s.(clients := s.clients - {cid})
              && (s.clients[cid].pc.Publish? ==> Enabled(s, LosePublish(cid)))
    ensures cid !in s.clients ==>
              (Enabled(s, Arrive(cid, call)) <==> (call.Request? && !call.job.Fund? ==> call.job.amount >= 100))
  {
  }

  /** And either read inside a transaction may return the row as of any commit since the transaction began, the two
      reads of a transfer as of different ones. */
  lemma AnySnapshotCanBeRead(s: State, wid: int, snap: nat)
    requires wid in s.workers && s.workers[wid].began <= snap <= |s.shared.history|
    requires s.workers[wid].pc.ReadFirst? || (s.workers[wid].pc.ReadSecond? && s.workers[wid].job.Transfer?)
    ensures Enabled(s, Step(wid, snap, 0))
    ensures var w, after := s.workers[wid], Apply(s, Step(wid, snap, 0)).workers[wid];
            if w.pc.ReadFirst? then after.first == Find(s.shared.Snapshot(snap), w.job.FirstWallet())
            else after.second == Find(s.shared.Snapshot(snap), w.job.recipientWalletId)
  {
    hide At, Vet, Find;
  }

  /** Aborts, duplicates, redelivery and expiry are no faults: no-fault runs have them too. */
  lemma NoFaultRunsHave(s: State, a: Action)
    requires Enabled(s, a) && (a.DbAbort? || a.Copy? || a.Redeliver? || a.Expire? || a.Hangup? || a.Step? || a.Deliver?)
    ensures NextNoFault(s, Apply(s, a))
  {
    hide Enabled, Apply;
  }
}
