/** The row locks of open transactions. A transfer locks its sender's row, then its recipient's, whatever
    their ids; here is exactly when that deadlocks, and what locking in ascending order would give. */
module Locks {
  import opened Domain
  import opened Books
  import opened History
  import opened Retry
  import opened Machine
  import opened AllRuns
  import opened Scenarios

  /** The row a worker's next update has to lock. */
  function Wanted(w: Worker): Option<int> {
    if w.pc.UpdateFirst? then Some(w.job.FirstWallet())
    else if w.pc.UpdateSecond? && w.job.Transfer? then Some(w.job.recipientWalletId)
    else None
  }

  predicate WaitsFor(s: State, a: int, b: int) {
    && a in s.workers && b in s.workers && a != b
    && Wanted(s.workers[a]).Some? && Wanted(s.workers[a]).value in s.workers[b].writes
  }

  predicate Waits(s: State, a: int) {
    exists b | b in s.workers :: WaitsFor(s, a, b)
  }

  /** A worker with a step to take can take it, or have it fail, exactly when it waits for nobody. */
  lemma BlockedIff(s: State, wid: int, snap: nat, fee: int, applied: bool)
    requires wid in s.workers && Choosable(s.shared, s.workers[wid], snap, fee)
    ensures Enabled(s, Step(wid, snap, fee)) <==> !Waits(s, wid)
    ensures Enabled(s, Fault(wid, applied, snap, fee)) <==> !Waits(s, wid)
  {
    hide Choosable;
    if !Enabled(s, Step(wid, snap, fee)) {
      var id := Wanted(s.workers[wid]).value;
      var b :| b in s.workers && b != wid && id in s.workers[b].writes;
      assert WaitsFor(s, wid, b);
    }
  }

  /** A worker that holds a lock and waits for another is a transfer between its two updates; what it holds is
      its sender's row. */
  lemma HoldsAndWaits(s: State, b: int)
    requires Inv(s) && b in s.workers && Wanted(s.workers[b]).Some?
    ensures var w := s.workers[b];
            if w.pc.UpdateFirst? then w.writes == map[]
            else w.pc.UpdateSecond? && w.job.Transfer? && w.writes.Keys == {w.job.senderWalletId}
  {
    assert WorkerOk(s.shared, s.workers[b]);
    hide Inv, ReadsOk, Vet, Spent, At;
  }

  // ---------------------------------------------------------------- cycles

  function After(c: seq<int>, i: nat): int
    requires i < |c|
  {
    if i + 1 < |c| then c[i + 1] else c[0]
  }

  /** Each worker of the sequence waits for the next one, and the last for the first. */
  predicate WaitCycle(s: State, c: seq<int>) {
    |c| > 0 && forall i :: 0 <= i < |c| ==> WaitsFor(s, c[i], After(c, i))
  }

  /** Transfer a wants to credit the wallet that transfer b has debited. */
  predicate Follows(s: State, a: int, b: int) {
    && a in s.workers && b in s.workers && a != b
    && s.workers[a].pc.UpdateSecond? && s.workers[b].pc.UpdateSecond?
    && s.workers[a].job.Transfer? && s.workers[b].job.Transfer?
    && s.workers[a].job.recipientWalletId == s.workers[b].job.senderWalletId
  }

  predicate Circle(s: State, c: seq<int>) {
    |c| > 0 && forall i :: 0 <= i < |c| ==> Follows(s, c[i], After(c, i))
  }

  lemma WaitsIffFollows(s: State, a: int, b: int)
    requires Inv(s) && b in s.workers && Wanted(s.workers[b]).Some?
    ensures Follows(s, a, b) ==> WaitsFor(s, a, b)
    ensures WaitsFor(s, a, b) && s.workers[a].pc.UpdateSecond? ==> Follows(s, a, b)
    ensures WaitsFor(s, a, b) ==> s.workers[b].pc.UpdateSecond?
  {
    HoldsAndWaits(s, b);
    hide Inv;
  }

  /** Workers wait for each other in a circle exactly when they are transfers between their two updates, each
      about to credit the wallet the next one has debited. */
  lemma CycleIff(s: State, c: seq<int>)
    requires Inv(s)
    ensures WaitCycle(s, c) <==> Circle(s, c)
  {
    hide Inv;
    if WaitCycle(s, c) {
      forall i | 0 <= i < |c| ensures Follows(s, c[i], After(c, i)) {
        var before := if i > 0 then i - 1 else |c| - 1;
        assert After(c, before) == c[i] && WaitsFor(s, c[before], After(c, before));
        assert i + 1 < |c| ==> WaitsFor(s, c[i + 1], After(c, i + 1));
        assert WaitsFor(s, c[0], After(c, 0)) && WaitsFor(s, c[i], After(c, i));
        WaitsIffFollows(s, c[before], c[i]);
        WaitsIffFollows(s, c[i], After(c, i));
      }
    }
    if Circle(s, c) {
      forall i | 0 <= i < |c| ensures WaitsFor(s, c[i], After(c, i)) {
        assert Follows(s, c[i], After(c, i));
        WaitsIffFollows(s, c[i], After(c, i));
      }
    }
  }

  /** Two workers between their updates block each other exactly when they are opposite transfers. */
  lemma BlockEachOtherIff(s: State, a: int, b: int)
    requires Inv(s) && a in s.workers && b in s.workers && a != b
    ensures WaitsFor(s, a, b) && WaitsFor(s, b, a) <==> Follows(s, a, b) && Follows(s, b, a)
  {
    hide Inv;
    if WaitsFor(s, a, b) && WaitsFor(s, b, a) {
      WaitsIffFollows(s, a, b);
      WaitsIffFollows(s, b, a);
    }
    if Follows(s, a, b) && Follows(s, b, a) {
      WaitsIffFollows(s, a, b);
      WaitsIffFollows(s, b, a);
    }
  }

  /** The database or a crash takes out a worker of the circle. */
  predicate Breaks(a: Action, c: seq<int>) {
    (a.DbAbort? || a.Crash?) && a.wid in c
  }

  lemma WaiterStays(s: State, wid: int, b: int, a: Action)
    requires WaitsFor(s, wid, b) && Enabled(s, a) && !((a.DbAbort? || a.Crash?) && a.wid == wid)
    ensures wid in Apply(s, a).workers && Apply(s, a).workers[wid] == s.workers[wid]
  {
    hide Advance, Respond, InFlight, Choosable, CanRespond, Throw, Fail, AfterThrow, NewWorker;
  }

  /** Nothing but that ends a circle: no other step of the system frees any of its workers. */
  lemma CycleIsStuck(s: State, c: seq<int>, a: Action)
    requires WaitCycle(s, c) && Enabled(s, a) && !Breaks(a, c)
    ensures WaitCycle(Apply(s, a), c)
  {
    hide Enabled, Apply;
    forall i | 0 <= i < |c| ensures c[i] in Apply(s, a).workers && Apply(s, a).workers[c[i]] == s.workers[c[i]] {
      assert c[i] in c && WaitsFor(s, c[i], After(c, i));
      WaiterStays(s, c[i], After(c, i), a);
    }
    forall i | 0 <= i < |c| ensures WaitsFor(Apply(s, a), c[i], After(c, i)) {
      assert WaitsFor(s, c[i], After(c, i));
    }
  }

  // ---------------------------------------------------------------- where the waits lead

  /** Each worker of the sequence waits for the next one. */
  predicate WaitChain(s: State, c: seq<int>) {
    && |c| > 0 && c[0] in s.workers
    && forall i :: 0 <= i < |c| - 1 ==> WaitsFor(s, c[i], c[i + 1])
  }

  /** The worker's transaction can take its next step, whatever choices that step leaves open. */
  ghost predicate CanGoOn(s: State, wid: int) {
    && wid in s.workers && InTransaction(s.workers[wid].pc)
    && forall snap, fee :: Enabled(s, Step(wid, snap, fee))
  }

  /** The waits of wid lead along the sequence to a transaction that can go on. */
  ghost predicate LeadsOut(s: State, wid: int, c: seq<int>) {
    WaitChain(s, c) && c[0] == wid && CanGoOn(s, c[|c| - 1])
  }

  /** The waits of wid lead along the sequence into a circle, from place k on. */
  predicate LeadsAround(s: State, wid: int, c: seq<int>, k: nat) {
    k < |c| && WaitChain(s, c) && c[0] == wid && WaitCycle(s, c[k..])
  }

  lemma HolderRuns(s: State, b: int)
    requires Inv(s) && b in s.workers && s.workers[b].writes != map[]
    ensures FirstWritten(s.workers[b].pc)
  {
    assert WorkerOk(s.shared, s.workers[b]);
    hide Inv, ReadsOk, Spent;
  }

  lemma GoesOn(s: State, wid: int)
    requires wid in s.workers && !Waits(s, wid) && BothRead(s.workers[wid].pc)
    ensures CanGoOn(s, wid)
  {
    forall snap, fee ensures Enabled(s, Step(wid, snap, fee)) {
      BlockedIff(s, wid, snap, fee, false);
    }
  }

  lemma ChainGrows(s: State, c: seq<int>, b: int)
    requires WaitChain(s, c) && WaitsFor(s, c[|c| - 1], b)
    ensures WaitChain(s, c + [b])
  {
    hide WaitsFor;
  }

  /** A worker that comes up again closes a circle. */
  lemma CircleCloses(s: State, c: seq<int>, k: nat)
    requires WaitChain(s, c) && k < |c| && WaitsFor(s, c[|c| - 1], c[k])
    ensures WaitCycle(s, c[k..])
  {
    hide WaitsFor;
    var tail := c[k..];
    forall i | 0 <= i < |tail| ensures WaitsFor(s, tail[i], After(tail, i)) {
      if i + 1 < |tail| { assert WaitsFor(s, c[k + i], c[k + i + 1]); }
    }
  }

  /** The workers a chain has not come to yet. */
  function OffPath(s: State, path: seq<int>): set<int> {
    s.workers.Keys - set wid | wid in path
  }

  lemma PathUses(s: State, path: seq<int>, b: int)
    requires b in s.workers && b !in path
    ensures OffPath(s, path + [b]) < OffPath(s, path)
  {
    assert b in path + [b];
    assert forall wid | wid in path :: wid in path + [b];
    assert b in OffPath(s, path) && b !in OffPath(s, path + [b]);
  }

  /** Follow the waits from the end of a chain until they leave it at a transaction that can go on, or come
      back to a worker already on it. */
  lemma {:induction false} FollowWaits(s: State, path: seq<int>) returns (c: seq<int>, k: nat)
    requires Inv(s) && WaitChain(s, path)
    requires path[|path| - 1] in s.workers && Wanted(s.workers[path[|path| - 1]]).Some?
    ensures LeadsOut(s, path[0], c) || LeadsAround(s, path[0], c, k)
    ensures k < |c|
    decreases OffPath(s, path)
  {
    hide Inv, WaitCycle, CanGoOn, OffPath;
    var last := path[|path| - 1];
    if !Waits(s, last) {
      c, k := path, 0;
      GoesOn(s, last);
    } else {
      var b :| b in s.workers && WaitsFor(s, last, b);
      if b in path {
        k :| 0 <= k < |path| && path[k] == b;
        c := path;
        CircleCloses(s, path, k);
      } else {
        ChainGrows(s, path, b);
        if Wanted(s.workers[b]).Some? {
          PathUses(s, path, b);
          c, k := FollowWaits(s, path + [b]);
        } else {
          c, k := path + [b], 0;
          HolderRuns(s, b);
          GoesOn(s, b);
        }
      }
    }
  }

  /** A row has one holder, so a worker waits for at most one other. */
  lemma OneHolder(s: State, a: int, b: int, other: int)
    requires Inv(s) && WaitsFor(s, a, b) && WaitsFor(s, a, other)
    ensures b == other
  {
    assert b != other ==> Apart(s.workers[b], s.workers[other]);
    hide Inv;
  }

  /** Every worker of a chain that ends in a circle waits for a worker of the chain. */
  lemma AllWait(s: State, wid: int, c: seq<int>, k: nat, x: int) returns (next: int)
    requires LeadsAround(s, wid, c, k) && x in c
    ensures next in c && WaitsFor(s, x, next)
  {
    hide WaitsFor;
    var i :| 0 <= i < |c| && c[i] == x;
    if i + 1 < |c| {
      next := c[i + 1];
    } else {
      next := c[k];
      var tail := c[k..];
      assert WaitsFor(s, tail[|tail| - 1], After(tail, |tail| - 1));
    }
  }

  /** So no chain of waits from the same worker ever leaves it. */
  lemma {:induction false} ChainStaysIn(s: State, wid: int, c: seq<int>, k: nat, d: seq<int>, i: nat)
    requires Inv(s) && LeadsAround(s, wid, c, k) && WaitChain(s, d) && d[0] == wid && i < |d|
    ensures d[i] in c
  {
    hide Inv, LeadsAround;
    if i == 0 {
      StartsAtItself(s, wid, c, k);
    } else {
      ChainStaysIn(s, wid, c, k, d, i - 1);
      var next := AllWait(s, wid, c, k, d[i - 1]);
      assert WaitsFor(s, d[i - 1], d[i - 1 + 1]);
      OneHolder(s, d[i - 1], d[i], next);
    }
  }

  lemma StartsAtItself(s: State, wid: int, c: seq<int>, k: nat)
    requires LeadsAround(s, wid, c, k)
    ensures wid in c
  {
  }

  ghost predicate Stuck(s: State, wid: int) {
    exists c, k: nat :: LeadsAround(s, wid, c, k)
  }

  ghost predicate GetsOut(s: State, wid: int) {
    exists c :: LeadsOut(s, wid, c)
  }

  /** Where a worker that wants a row ends up: its waits lead into a circle exactly when they do not lead to a
      transaction that can go on. */
  lemma StuckIff(s: State, wid: int)
    requires Inv(s) && wid in s.workers && Wanted(s.workers[wid]).Some?
    ensures Stuck(s, wid) <==> !GetsOut(s, wid)
  {
    hide Inv, LeadsOut, LeadsAround;
    ChainOfOne(s, wid);
    var c, k := FollowWaits(s, [wid]);
    if Stuck(s, wid) && GetsOut(s, wid) {
      var around, from: nat :| LeadsAround(s, wid, around, from);
      var out :| LeadsOut(s, wid, out);
      NotBoth(s, wid, around, from, out);
    }
  }

  lemma ChainOfOne(s: State, wid: int)
    requires wid in s.workers
    ensures WaitChain(s, [wid])
  {
  }

  lemma NotBoth(s: State, wid: int, c: seq<int>, k: nat, d: seq<int>)
    requires Inv(s) && LeadsAround(s, wid, c, k)
    ensures !LeadsOut(s, wid, d)
  {
    hide Inv, LeadsAround, Enabled;
    if LeadsOut(s, wid, d) {
      var last := d[|d| - 1];
      ChainStaysIn(s, wid, c, k, d, |d| - 1);
      var next := AllWait(s, wid, c, k, last);
      WaiterCannot(s, last, next);
    }
  }

  lemma WaiterCannot(s: State, wid: int, b: int)
    requires WaitsFor(s, wid, b)
    ensures !Enabled(s, Step(wid, 0, 0))
  {
    BlockedIff(s, wid, 0, 0, false);
  }

  // ---------------------------------------------------------------- the order the code does not follow

  predicate Ascending(job: Job) {
    job.Transfer? ==> job.senderWalletId < job.recipientWalletId
  }

  predicate AllAscending(s: State) {
    forall wid | wid in s.workers :: Ascending(s.workers[wid].job)
  }

  function Debited(s: State, wid: int): int {
    if wid in s.workers then s.workers[wid].job.FirstWallet() else 0
  }

  lemma DebitClimbs(s: State, a: int, b: int)
    requires Follows(s, a, b) && Ascending(s.workers[a].job)
    ensures Debited(s, a) < Debited(s, b)
  {
  }

  /** Along a circle of ascending transfers the debited ids would have to keep growing. */
  lemma {:induction false} DebitsClimb(s: State, c: seq<int>, i: nat)
    requires Circle(s, c) && AllAscending(s) && i < |c|
    ensures Debited(s, c[0]) < Debited(s, After(c, i))
  {
    if i > 0 { DebitsClimb(s, c, i - 1); }
    assert Follows(s, c[i], After(c, i));
    hide AllAscending, Circle;
    DebitClimbs(s, c[i], After(c, i));
  }

  /** Had every transfer its smaller wallet id first, no circle could form. */
  lemma AscendingHasNoCycle(s: State, c: seq<int>)
    requires Inv(s) && AllAscending(s)
    ensures !WaitCycle(s, c)
  {
    CycleIff(s, c);
    hide Inv, AllAscending, Circle;
    if Circle(s, c) && |c| > 0 { DebitsClimb(s, c, |c| - 1); }
  }

  /** And then the waits of every worker lead to a transaction that can go on. */
  lemma AscendingGoesOn(s: State, wid: int) returns (c: seq<int>)
    requires Inv(s) && AllAscending(s)
    requires wid in s.workers && Wanted(s.workers[wid]).Some?
    ensures LeadsOut(s, wid, c)
  {
    hide Inv, AllAscending, WaitChain, CanGoOn, WaitCycle;
    ChainOfOne(s, wid);
    var k;
    c, k := FollowWaits(s, [wid]);
    AscendingHasNoCycle(s, c[k..]);
  }

  // ---------------------------------------------------------------- a run that deadlocks

  /** One await of a worker, as a step of the system. */
  lemma Takes(s: State, wid: int) returns (s': State)
    requires Runnable(s, wid, |s.shared.history|, 0) && s.workers[wid].pc != Done(Threw)
    requires Advance(s.shared, s.workers[wid], |s.shared.history|, 0).1.pc != Done(Threw)
    ensures Leads(s, s')
    ensures var (sh, w) := Advance(s.shared, s.workers[wid], |s.shared.history|, 0);
            s' == s.(shared := sh, workers := s.workers[wid := w])
  {
    hide Advance, Leads;
    StepLeads(s, Step(wid, |s.shared.history|, 0));
    s' := Apply(s, Step(wid, |s.shared.history|, 0));
  }

  /** The ticket a transfer's pre-log writes. */
  function TicketFor(job: Job): Ticket {
    Ticket(job.Requester(), job.currency, Pending)
  }

  /** A new transfer whose wallets pass its checks gets as far as its transaction. */
  lemma TransferBegins(s: State, m: Message, wid: int) returns (s': State)
    requires m in s.ready && wid !in s.workers && m.payload.Transfer?
    requires m.payload.txId !in s.shared.cache && m.payload.txId !in s.shared.tickets
    ensures Leads(s, s')
    ensures s' == s.(ready := s.ready - multiset{m},
                     shared := s.shared.(tickets := s.shared.tickets[m.payload.txId := TicketFor(m.payload)]),
                     workers := s.workers[wid := NewWorker(m).(pc := Begin, won := true)])
  {
    hide Leads, AdvanceTransaction, AdvanceEnding;
    StepLeads(s, Deliver(m, wid));
    var s1 := Apply(s, Deliver(m, wid));
    var s2 := Takes(s1, wid);
    s' := Takes(s2, wid);
    LeadsOn(s, s1, s2);
    LeadsOn(s, s2, s');
  }

  lemma TransferReads(s: State, wid: int) returns (s': State)
    requires wid in s.workers && SharedOk(s.shared)
    requires var w := s.workers[wid];
             && w.pc.Begin? && w.job.Transfer?
             && Vet(w.job, Find(s.shared.books.wallets, w.job.senderWalletId),
                    Find(s.shared.books.wallets, w.job.recipientWalletId)).Ok?
    ensures Leads(s, s') && wid in s'.workers
    ensures var w, n := s.workers[wid], |s.shared.history|;
            s' == s.(workers := s.workers[wid :=
                     w.(pc := UpdateFirst, fee := 0, began := n, firstAt := n, secondAt := n,
                        first := Find(s.shared.books.wallets, w.job.senderWalletId),
                        second := Find(s.shared.books.wallets, w.job.recipientWalletId))])
  {
    hide Leads, SharedOk, Advance, Vet, Find;
    ReadsInTurn(s.shared, s.workers[wid]);
    var s1 := Takes(s, wid);
    var s2 := Takes(s1, wid);
    s' := Takes(s2, wid);
    LeadsOn(s, s1, s2);
    LeadsOn(s, s2, s');
  }

  /** What the three awaits make of the worker. */
  lemma ReadsInTurn(sh: Shared, w: Worker)
    requires SharedOk(sh) && w.pc.Begin? && w.job.Transfer?
    requires Vet(w.job, Find(sh.books.wallets, w.job.senderWalletId),
                 Find(sh.books.wallets, w.job.recipientWalletId)).Ok?
    ensures var n := |sh.history|;
            var w1 := w.(pc := ReadFirst, fee := 0, began := n);
            var w2 := w1.(pc := ReadSecond, firstAt := n, first := Find(sh.books.wallets, w.job.senderWalletId));
            var w3 := w2.(pc := UpdateFirst, secondAt := n, second := Find(sh.books.wallets, w.job.recipientWalletId));
            && Advance(sh, w, n, 0) == (sh, w1)
            && Advance(sh, w1, n, 0) == (sh, w2)
            && Advance(sh, w2, n, 0) == (sh, w3)
  {
    assert sh.Snapshot(|sh.history|) == sh.books.wallets;
    hide SharedOk, At, AdvanceOpening, AdvanceEnding, Vet, Find;
  }

  /** The worker of a transfer that has debited its sender and not yet credited its recipient. */
  predicate HalfWay(w: Worker, job: Job) {
    && job.Transfer? && w.job == job && w.pc.UpdateSecond?
    && w.writes.Keys == {job.senderWalletId}
  }

  /** So it can be left half way, if nobody has locked its sender's row. */
  lemma TransferGrabs(s: State, m: Message, wid: int) returns (s': State)
    requires Reached(s) && m in s.ready && wid !in s.workers && m.payload.Transfer?
    requires m.payload.txId !in s.shared.cache && m.payload.txId !in s.shared.tickets
    requires Vet(m.payload, Find(s.shared.books.wallets, m.payload.senderWalletId),
                 Find(s.shared.books.wallets, m.payload.recipientWalletId)).Ok?
    requires forall other | other in s.workers :: m.payload.senderWalletId !in s.workers[other].writes
    ensures Reached(s') && wid in s'.workers && HalfWay(s'.workers[wid], m.payload)
    ensures s' == s.(ready := s.ready - multiset{m},
                     shared := s.shared.(tickets := s.shared.tickets[m.payload.txId := TicketFor(m.payload)]),
                     workers := s.workers[wid := s'.workers[wid]])
  {
    hide Leads, Reached, SharedOk, Inv, Vet, AdvanceOpening, AdvanceEnding;
    var s1 := TransferBegins(s, m, wid);
    ReachedOn(s, s1);
    ReachedIsSound(s1);
    SoundIsShared(s1);
    var s2 := TransferReads(s1, wid);
    ReachedOn(s1, s2);
    VetFinds(m.payload, s.shared.books.wallets);
    s' := Takes(s2, wid);
    ReachedOn(s2, s');
  }

  lemma VetFinds(job: Job, wallets: map<int, Wallet>)
    requires job.Transfer? && Vet(job, Find(wallets, job.senderWalletId), Find(wallets, job.recipientWalletId)).Ok?
    ensures job.senderWalletId in wallets && job.recipientWalletId in wallets
  {
  }

  /** The place after i in a ring of n. */
  function NextPlace(n: nat, i: nat): (next: nat)
    requires i < n
    ensures next < n
  {
    if i + 1 < n then i + 1 else 0
  }

  /** Transfers, each of which would credit the wallet the next one debits, all from different wallets. */
  predicate Ring(jobs: seq<Job>) {
    && |jobs| > 0
    && (forall i :: 0 <= i < |jobs| ==> jobs[i].Transfer?)
    && (forall i, j :: 0 <= i < j < |jobs| ==>
          jobs[i].txId != jobs[j].txId && jobs[i].FirstWallet() != jobs[j].FirstWallet())
    && (forall i :: 0 <= i < |jobs| ==> jobs[i].recipientWalletId == jobs[NextPlace(|jobs|, i)].FirstWallet())
  }

  predicate AllServed(wallets: map<int, Wallet>, jobs: seq<Job>) {
    forall i :: 0 <= i < |jobs| ==> Admissible(jobs[i]) && Serve(Books(wallets, []), jobs[i], 0).Ok?
  }

  /** The first n jobs have been requested and wait in the queue; nothing else has happened. */
  predicate AllQueued(s: State, wallets: map<int, Wallet>, jobs: seq<Job>, n: nat)
    requires n <= |jobs|
  {
    && s.shared == Beginning(wallets).shared && s.workers == map[]
    && (forall i :: 0 <= i < n ==> Envelope(jobs[i], 0) in s.ready)
    && (forall cid | cid in s.clients :: cid < n)
  }

  lemma {:induction false} QueueAll(wallets: map<int, Wallet>, jobs: seq<Job>, n: nat) returns (s: State)
    requires OneWalletPerCurrency(wallets) && n <= |jobs| && forall i :: 0 <= i < |jobs| ==> Admissible(jobs[i])
    ensures Reached(s) && AllQueued(s, wallets, jobs, n)
  {
    hide OneWalletPerCurrency, Reached, Leads, Admissible;
    if n == 0 {
      StartsReached(wallets);
      s := Beginning(wallets);
    } else {
      var before := QueueAll(wallets, jobs, n - 1);
      s := RequestQueues(before, n - 1, jobs[n - 1]);
      ReachedOn(before, s);
    }
  }

  /** Workers 0 to n - 1, and no others, have each debited the sender of their job. */
  predicate WorkersHalfWay(ws: map<int, Worker>, jobs: seq<Job>, n: nat)
    requires n <= |jobs|
  {
    && (forall wid | wid in ws :: 0 <= wid < n)
    && (forall i :: 0 <= i < n ==> i in ws && HalfWay(ws[i], jobs[i]))
  }

  /** The other jobs still wait, and have no tickets. */
  predicate OthersWait(ready: multiset<Message>, tickets: map<string, Ticket>, jobs: seq<Job>, n: nat) {
    forall i :: n <= i < |jobs| ==> Envelope(jobs[i], 0) in ready && jobs[i].txId !in tickets
  }

  predicate AllHalfWay(s: State, wallets: map<int, Wallet>, jobs: seq<Job>, n: nat)
    requires n <= |jobs|
  {
    && s.shared.books == Books(wallets, []) && s.shared.cache == map[]
    && WorkersHalfWay(s.workers, jobs, n) && OthersWait(s.ready, s.shared.tickets, jobs, n)
  }

  lemma {:induction false} GrabAll(wallets: map<int, Wallet>, jobs: seq<Job>, n: nat) returns (s: State)
    requires OneWalletPerCurrency(wallets) && Ring(jobs) && AllServed(wallets, jobs) && n <= |jobs|
    ensures Reached(s) && AllHalfWay(s, wallets, jobs, n)
  {
    hide OneWalletPerCurrency, Reached, Admissible, Serve, HalfWay, Ring;
    if n == 0 {
      s := QueueAll(wallets, jobs, |jobs|);
    } else {
      var job := jobs[n - 1];
      var before := GrabAll(wallets, jobs, n - 1);
      NobodyHolds(before.workers, jobs, n - 1);
      AllTransfers(jobs, n - 1);
      ServedIsVetted(wallets, job);
      s := TransferGrabs(before, Envelope(job, 0), n - 1);
      hide WorkersHalfWay, OthersWait;
      OneMoreHalfWay(before.workers, s.workers[n - 1], jobs, n - 1);
      OneFewerWaits(before.ready, before.shared.tickets, jobs, n - 1, TicketFor(job));
    }
  }

  lemma ServedIsVetted(wallets: map<int, Wallet>, job: Job)
    requires job.Transfer? && Serve(Books(wallets, []), job, 0).Ok?
    ensures Vet(job, Find(wallets, job.senderWalletId), Find(wallets, job.recipientWalletId)).Ok?
    ensures job.senderWalletId != job.recipientWalletId
  {
    SameWalletTransferConflicts(Books(wallets, []), job, 0);
  }

  lemma AllTransfers(jobs: seq<Job>, i: nat)
    requires Ring(jobs) && i < |jobs|
    ensures jobs[i].Transfer?
  {
  }

  lemma NobodyHolds(ws: map<int, Worker>, jobs: seq<Job>, n: nat)
    requires Ring(jobs) && n < |jobs| && WorkersHalfWay(ws, jobs, n)
    ensures forall other | other in ws :: jobs[n].FirstWallet() !in ws[other].writes
  {
    forall other | other in ws ensures jobs[n].FirstWallet() !in ws[other].writes {
      assert HalfWay(ws[other], jobs[other]);
    }
  }

  lemma OneMoreHalfWay(ws: map<int, Worker>, w: Worker, jobs: seq<Job>, n: nat)
    requires n < |jobs| && WorkersHalfWay(ws, jobs, n) && HalfWay(w, jobs[n])
    ensures WorkersHalfWay(ws[n := w], jobs, n + 1)
  {
    hide HalfWay;
  }

  lemma OneFewerWaits(ready: multiset<Message>, tickets: map<string, Ticket>, jobs: seq<Job>, n: nat, t: Ticket)
    requires Ring(jobs) && n < |jobs| && OthersWait(ready, tickets, jobs, n)
    ensures OthersWait(ready - multiset{Envelope(jobs[n], 0)}, tickets[jobs[n].txId := t], jobs, n + 1)
  {
    forall i | n + 1 <= i < |jobs| ensures jobs[i].txId != jobs[n].txId {
      assert jobs[n].txId != jobs[i].txId;
    }
  }

  /** The code locks sender first whatever the ids, so any transfers that would each go through and whose
      wallets form a ring, of whatever length, can all block each other. */
  lemma RingDeadlocks(wallets: map<int, Wallet>, jobs: seq<Job>) returns (s: State)
    requires OneWalletPerCurrency(wallets) && Ring(jobs) && AllServed(wallets, jobs)
    ensures Reached(s) && WaitCycle(s, seq(|jobs|, i => i))
    ensures forall i :: 0 <= i < |jobs| ==> i in s.workers && s.workers[i].job == jobs[i]
  {
    hide OneWalletPerCurrency, Reached, Serve, Admissible, HalfWay, Ring, WaitsFor;
    s := GrabAll(wallets, jobs, |jobs|);
    RingIsSome(jobs);
    var c := seq(|jobs|, i => i);
    forall i | 0 <= i < |jobs| ensures WaitsFor(s, c[i], After(c, i)) {
      RingWaits(s, wallets, jobs, i);
      assert After(c, i) == NextPlace(|jobs|, i);
    }
    forall i | 0 <= i < |jobs| ensures i in s.workers && s.workers[i].job == jobs[i] {
      HalfWayHolds(s.workers[i], jobs[i]);
    }
  }

  lemma RingIsSome(jobs: seq<Job>)
    requires Ring(jobs)
    ensures |jobs| > 0
  {
  }

  lemma HalfWayHolds(w: Worker, job: Job)
    requires HalfWay(w, job)
    ensures job.Transfer? && w.job == job && w.writes.Keys == {job.senderWalletId}
    ensures Wanted(w) == Some(job.recipientWalletId)
  {
  }

  lemma RingWaits(s: State, wallets: map<int, Wallet>, jobs: seq<Job>, i: nat)
    requires Ring(jobs) && AllServed(wallets, jobs) && i < |jobs| && WorkersHalfWay(s.workers, jobs, |jobs|)
    ensures WaitsFor(s, i, NextPlace(|jobs|, i))
  {
    hide HalfWay, Serve;
    var next := NextPlace(|jobs|, i);
    ServedIsVetted(wallets, jobs[i]);
    HalfWayHolds(s.workers[i], jobs[i]);
    HalfWayHolds(s.workers[next], jobs[next]);
    assert jobs[i].recipientWalletId == jobs[next].FirstWallet();
  }

  /** In particular any two opposite transfers can. */
  lemma OppositeTransfersDeadlock(wallets: map<int, Wallet>, one: Job, two: Job) returns (s: State)
    requires OneWalletPerCurrency(wallets) && Admissible(one) && Admissible(two) && one.txId != two.txId
    requires Serve(Books(wallets, []), one, 0).Ok? && Serve(Books(wallets, []), two, 0).Ok?
    requires one.Transfer? && two.Transfer?
    requires one.senderWalletId == two.recipientWalletId && two.senderWalletId == one.recipientWalletId
    ensures Reached(s) && WaitCycle(s, [0, 1])
    ensures s.workers[0].job == one && s.workers[1].job == two
  {
    hide OneWalletPerCurrency, Reached, Serve, Admissible, WaitCycle;
    ServedIsVetted(wallets, one);
    var jobs := [one, two];
    s := RingDeadlocks(wallets, jobs);
    assert seq(|jobs|, i => i) == [0, 1];
    assert jobs[0] == one && jobs[1] == two;
  }
}
