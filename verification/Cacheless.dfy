/** The idempotency cache under interleaving: every no-fault run has a twin that goes through the same
    tables, queues and outcomes with an empty cache. */
module Cacheless {
  import opened Domain
  import opened Books
  import opened History
  import opened Retry
  import opened Machine
  import opened AllRuns
  import opened NoFault

  // ---------------------------------------------------------------- the twin

  /** A worker about to delete a stale entry; with no entries its twin is already at the pre-log. */
  function Undropped(w: Worker): Worker {
    if w.pc.DropStale? then w.(pc := PreLog) else w
  }

  /** The same call, up to what an answered one has looked at. */
  predicate SameCall(c: Client, twin: Client) {
    twin.call == c.call && twin.pc == c.pc && (c.pc.Answered? || twin.seen == c.seen)
  }

  predicate SameCalls(cs: map<int, Client>, twins: map<int, Client>) {
    twins.Keys == cs.Keys && forall cid | cid in cs :: SameCall(cs[cid], twins[cid])
  }

  function TwinWorkers(ws: map<int, Worker>): map<int, Worker> {
    map wid | wid in ws :: Undropped(ws[wid])
  }

  /** Same tables, history, queues, throws, workers and calls; no cache entry. */
  predicate Twin(s: State, t: State) {
    && t == State(s.shared.(cache := map[]), s.ready, s.unacked, s.dead, TwinWorkers(s.workers), t.clients, s.thrown)
    && SameCalls(s.clients, t.clients)
  }

  // ---------------------------------------------------------------- no-fault paths

  ghost predicate CalmPath(path: seq<State>) {
    |path| > 0 && forall i :: 0 <= i < |path| - 1 ==> NextNoFault(path[i], path[i + 1])
  }

  lemma Longer(path: seq<State>, a: Action) returns (longer: seq<State>)
    requires CalmPath(path) && Enabled(path[|path| - 1], a) && !Faulty(a)
    ensures CalmPath(longer) && path <= longer && longer[|longer| - 1] == Apply(path[|path| - 1], a)
  {
    hide Enabled, Apply;
    longer := path + [Apply(path[|path| - 1], a)];
    forall i | 0 <= i < |longer| - 1 ensures NextNoFault(longer[i], longer[i + 1]) {
      if i < |path| - 1 { assert NextNoFault(path[i], path[i + 1]); }
    }
  }

  function Last(path: seq<State>): State
    requires |path| > 0
  {
    path[|path| - 1]
  }

  // ---------------------------------------------------------------- workers

  /** Only these awaits look at the cache or change it. */
  predicate Caching(pc: Pc) {
    pc.Lookup? || pc.DropStale? || pc.CacheSuccess? || pc.CacheFailed?
  }

  /** The await does the same whatever the entries are, and leaves them alone. */
  predicate BlindTo(sh: Shared, w: Worker, snap: nat, fee: int, cache: map<string, Status>)
    requires Choosable(sh, w, snap, fee)
  {
    && Choosable(sh.(cache := cache), w, snap, fee)
    && var (sh', w') := Advance(sh, w, snap, fee);
       Advance(sh.(cache := cache), w, snap, fee) == (sh'.(cache := cache), w') && !w'.pc.DropStale?
  }

  lemma ReadsBlind(sh: Shared, w: Worker, snap: nat, fee: int, cache: map<string, Status>)
    requires Choosable(sh, w, snap, fee) && (w.pc.Begin? || w.pc.ReadFirst? || w.pc.ReadSecond?)
    ensures BlindTo(sh, w, snap, fee, cache)
  {
    hide At, Vet, Find, SecondRead, AdvanceOpening, AdvanceEnding;
  }

  lemma UpdatesBlind(sh: Shared, w: Worker, snap: nat, fee: int, cache: map<string, Status>)
    requires Choosable(sh, w, snap, fee) && (w.pc.UpdateFirst? || w.pc.UpdateSecond?)
    ensures BlindTo(sh, w, snap, fee, cache)
  {
    hide GuardedBy, RowsOf, At, FirstDelta, AdvanceOpening, AdvanceEnding;
  }

  lemma WritesBlind(sh: Shared, w: Worker, snap: nat, fee: int, cache: map<string, Status>)
    requires Choosable(sh, w, snap, fee) && (w.pc.WriteTicket? || w.pc.WriteLedger? || w.pc.Commit?)
    ensures BlindTo(sh, w, snap, fee, cache)
  {
    hide Insertable, RowsOf, At, AdvanceOpening, AdvanceEnding;
  }

  lemma OthersBlind(sh: Shared, w: Worker, snap: nat, fee: int, cache: map<string, Status>)
    requires Choosable(sh, w, snap, fee) && !InTransaction(w.pc) && !Caching(w.pc)
    ensures BlindTo(sh, w, snap, fee, cache)
  {
    hide AdvanceTransaction, Owned, Find;
  }

  lemma CacheBlind(sh: Shared, w: Worker, snap: nat, fee: int, cache: map<string, Status>)
    requires Choosable(sh, w, snap, fee) && !Caching(w.pc)
    ensures BlindTo(sh, w, snap, fee, cache)
  {
    hide BlindTo, Choosable;
    if !InTransaction(w.pc) { OthersBlind(sh, w, snap, fee, cache); }
    else if w.pc.Begin? || w.pc.ReadFirst? || w.pc.ReadSecond? { ReadsBlind(sh, w, snap, fee, cache); }
    else if w.pc.UpdateFirst? || w.pc.UpdateSecond? { UpdatesBlind(sh, w, snap, fee, cache); }
    else { WritesBlind(sh, w, snap, fee, cache); }
  }

  lemma TwinRunnable(s: State, t: State, wid: int, snap: nat, fee: int)
    requires Twin(s, t) && Runnable(s, wid, snap, fee) && !s.workers[wid].pc.DropStale?
    ensures Runnable(t, wid, snap, fee) && t.workers[wid] == s.workers[wid]
  {
  }

  /** Replace one worker on both sides. */
  lemma TwinResume(s: State, t: State, wid: int, r: (Shared, Worker), r': (Shared, Worker))
    requires Twin(s, t) && wid in s.workers
    requires r'.0 == r.0.(cache := map[]) && r'.1 == Undropped(r.1)
    ensures Twin(Resume(s, wid, r), Resume(t, wid, r'))
  {
    hide SameCalls;
    assert TwinWorkers(s.workers[wid := r.1]) == TwinWorkers(s.workers)[wid := Undropped(r.1)];
  }

  lemma TwinStep(s: State, path: seq<State>, a: Action) returns (longer: seq<State>)
    requires Inv(s) && Calm(s) && CalmPath(path) && Twin(s, Last(path)) && Enabled(s, a) && a.Step?
    ensures CalmPath(longer) && path <= longer && Twin(Apply(s, a), Last(longer))
  {
    var w := s.workers[a.wid];
    hide Inv, Calm, Twin, NextNoFault, Advance, Enabled, Apply;
    match w.pc
    case Lookup => longer := TwinLookup(s, path, a);
    case DropStale => longer := path; TwinDrop(s, Last(path), a);
    case CacheSuccess => longer := TwinCaches(s, path, a);
    case CacheFailed => longer := TwinCaches(s, path, a);
    case _ => longer := TwinAwait(s, path, a);
  }

  lemma TwinAwait(s: State, path: seq<State>, a: Action) returns (longer: seq<State>)
    requires CalmPath(path) && Twin(s, Last(path)) && Enabled(s, a) && a.Step? && !Caching(s.workers[a.wid].pc)
    ensures CalmPath(longer) && path <= longer && Twin(Apply(s, a), Last(longer))
  {
    hide NextNoFault, Advance, Choosable;
    var t := Last(path);
    TwinRunnable(s, t, a.wid, a.snap, a.fee);
    CacheBlind(s.shared, s.workers[a.wid], a.snap, a.fee, map[]);
    longer := Longer(path, a);
    TwinResume(s, t, a.wid, Advance(s.shared, s.workers[a.wid], a.snap, a.fee),
               Advance(t.shared, t.workers[a.wid], a.snap, a.fee));
  }

  lemma TwinDrop(s: State, t: State, a: Action)
    requires Twin(s, t) && Enabled(s, a) && a.Step? && s.workers[a.wid].pc.DropStale?
    ensures Twin(Apply(s, a), t)
  {
    hide SameCalls;
    var s' := Apply(s, a);
    assert TwinWorkers(s'.workers) == TwinWorkers(s.workers);
  }

  /** An entry that is set and expires at once. */
  lemma TwinCaches(s: State, path: seq<State>, a: Action) returns (longer: seq<State>)
    requires CalmPath(path) && Twin(s, Last(path)) && Enabled(s, a) && a.Step?
    requires s.workers[a.wid].pc.CacheSuccess? || s.workers[a.wid].pc.CacheFailed?
    ensures CalmPath(longer) && path <= longer && Twin(Apply(s, a), Last(longer))
  {
    hide NextNoFault, SameCalls;
    var t, w := Last(path), s.workers[a.wid];
    TwinRunnable(s, t, a.wid, a.snap, a.fee);
    var once := Longer(path, a);
    var expiry := Expire(w.job.txId);
    longer := Longer(once, expiry);
    var (sh', w') := Advance(s.shared, w, a.snap, a.fee);
    assert Last(longer) == Resume(t, a.wid, (sh'.(cache := map[]), w'));
    TwinResume(s, t, a.wid, (sh', w'), (sh'.(cache := map[]), w'));
  }

  /** A final entry ends the handler at once; without it the pre-log finds the ticket and does the same. */
  lemma BareLookup(sh: Shared, w: Worker, snap: nat, fee: int)
    requires w.pc.Lookup? && (w.job.txId in sh.cache ==> Agrees(sh, w.job.txId, sh.cache[w.job.txId]))
    ensures var bare := sh.(cache := map[]);
            var (sh', w') := Advance(sh, w, snap, fee);
            && sh' == sh
            && Advance(bare, w, snap, fee) == (bare, w.(pc := PreLog))
            && if w'.pc.Done? then Advance(bare, w.(pc := PreLog), snap, fee) == (bare, w') && w'.pc == Done(Returned)
               else Undropped(w') == w.(pc := PreLog)
  {
    hide AdvanceTransaction, AdvanceEnding;
  }

  /** The worker takes one await on the twin's side. */
  lemma WorkerTakes(path: seq<State>, a: Action, sh: Shared, w: Worker) returns (longer: seq<State>)
    requires CalmPath(path) && a.Step? && Runnable(Last(path), a.wid, a.snap, a.fee) && w.pc != Done(Threw)
    requires Advance(Last(path).shared, Last(path).workers[a.wid], a.snap, a.fee) == (sh, w)
    ensures CalmPath(longer) && path <= longer
    ensures Last(longer) == Last(path).(shared := sh, workers := Last(path).workers[a.wid := w])
  {
    hide NextNoFault, Advance;
    longer := Longer(path, a);
  }

  lemma TwinLookup(s: State, path: seq<State>, a: Action) returns (longer: seq<State>)
    requires Calm(s) && CalmPath(path) && Twin(s, Last(path)) && Enabled(s, a) && a.Step?
    requires s.workers[a.wid].pc.Lookup?
    ensures CalmPath(longer) && path <= longer && Twin(Apply(s, a), Last(longer))
  {
    var t, w, sh := Last(path), s.workers[a.wid], s.shared;
    EntryAgrees(s, w.job.txId);
    hide NextNoFault, Inv, Calm, Advance, Agrees, SameCalls, Unlocked;
    TwinRunnable(s, t, a.wid, a.snap, a.fee);
    BareLookup(sh, w, a.snap, a.fee);
    var w' := Advance(sh, w, a.snap, a.fee).1;
    TwinResume(s, t, a.wid, (sh, w'), (t.shared, Undropped(w')));
    longer := WorkerTakes(path, a, t.shared, w.(pc := PreLog));
    if w'.pc.Done? {
      PreLogRunnable(t, Last(longer), a);
      longer := WorkerTakes(longer, a, t.shared, w');
    }
  }

  lemma EntryAgrees(s: State, txId: string)
    requires Calm(s)
    ensures txId in s.shared.cache ==> Agrees(s.shared, txId, s.shared.cache[txId])
  {
    hide WorkerCalm, ClientCalm, CalmQueues, ThrownOk, Agrees, Spent;
  }

  lemma PreLogRunnable(t: State, t': State, a: Action)
    requires a.Step? && a.wid in t.workers
    requires t' == t.(workers := t.workers[a.wid := t.workers[a.wid].(pc := PreLog)])
    ensures Runnable(t', a.wid, a.snap, a.fee)
  {
  }

  // ---------------------------------------------------------------- calls

  lemma TwinClient(s: State, t: State, cid: int, sh: Shared, c: Client, c': Client, ready: multiset<Message>)
    requires Twin(s, t) && SameCall(c, c')
    ensures Twin(s.(shared := sh, clients := s.clients[cid := c], ready := ready),
                 t.(shared := sh.(cache := map[]), clients := t.clients[cid := c'], ready := ready))
  {
  }

  predicate CallCaches(c: Client) {
    c.pc.Screen? || c.pc.Remember? || c.pc.RememberNew?
  }

  lemma CallBlind(sh: Shared, c: Client, newId: int, at: int, cache: map<string, Status>)
    requires CanRespond(sh, c, newId) && !CallCaches(c)
    ensures CanRespond(sh.(cache := cache), c, newId)
    ensures var (sh', c') := Respond(sh, c, newId, at);
            Respond(sh.(cache := cache), c, newId, at) == (sh'.(cache := cache), c')
  {
    hide Vacant, LiveWalletExists;
  }

  lemma TwinProceed(s: State, path: seq<State>, a: Action) returns (longer: seq<State>)
    requires Inv(s) && Calm(s) && CalmPath(path) && Twin(s, Last(path)) && Enabled(s, a) && a.Proceed?
    ensures CalmPath(longer) && path <= longer && Twin(Apply(s, a), Last(longer))
  {
    hide NextNoFault, Inv, Calm, Vacant, LiveWalletExists;
    var c, t := s.clients[a.cid], Last(path);
    if c.pc.Screen? && Respond(s.shared, c, a.newId, a.at).1.pc.Answered? {
      longer := TwinScreened(s, path, a);
    } else if c.pc.Remember? || c.pc.RememberNew? {
      longer := TwinRemembers(s, path, a);
    } else {
      if !c.pc.Screen? { CallBlind(s.shared, c, a.newId, a.at, map[]); }
      longer := Longer(path, a);
      var (sh', c') := Respond(s.shared, c, a.newId, a.at);
      TwinClient(s, t, a.cid, sh', c', Respond(t.shared, t.clients[a.cid], a.newId, a.at).1, Apply(s, a).ready);
    }
  }

  lemma TwinRemembers(s: State, path: seq<State>, a: Action) returns (longer: seq<State>)
    requires CalmPath(path) && Twin(s, Last(path)) && Enabled(s, a) && a.Proceed?
    requires s.clients[a.cid].pc.Remember? || s.clients[a.cid].pc.RememberNew?
    ensures CalmPath(longer) && path <= longer && Twin(Apply(s, a), Last(longer))
  {
    hide NextNoFault;
    var c, t := s.clients[a.cid], Last(path);
    var once := Longer(path, a);
    var expiry := Expire(c.TxId());
    longer := Longer(once, expiry);
    var (sh', c') := Respond(s.shared, c, a.newId, a.at);
    assert Last(longer) == t.(clients := t.clients[a.cid := c']);
    TwinClient(s, t, a.cid, sh', c', c', s.ready);
  }

  lemma ScreenedIsRefused(s: State, c: Client)
    requires Calm(s) && c.TxId() in s.shared.cache && Screened(c.call, s.shared.cache[c.TxId()])
    ensures c.TxId() in s.shared.tickets && Refused(c.call, Some(s.shared.tickets[c.TxId()]))
  {
    assert Agrees(s.shared, c.TxId(), s.shared.cache[c.TxId()]);
  }

  /** The call takes one await on the twin's side. */
  lemma CallTakes(path: seq<State>, a: Action, sh: Shared, c: Client) returns (longer: seq<State>)
    requires CalmPath(path) && a.Proceed? && a.cid in Last(path).clients && !Last(path).clients[a.cid].pc.Publish?
    requires CanRespond(Last(path).shared, Last(path).clients[a.cid], a.newId)
    requires Respond(Last(path).shared, Last(path).clients[a.cid], a.newId, a.at) == (sh, c)
    ensures CalmPath(longer) && path <= longer
    ensures Last(longer) == Last(path).(shared := sh, clients := Last(path).clients[a.cid := c])
  {
    hide NextNoFault, Respond;
    longer := Longer(path, a);
  }

  /** With no entries a call whose ticket makes it a duplicate finds that out in three awaits. */
  lemma BareScreening(sh: Shared, c: Client, newId: int, at: int)
    requires c.pc.Screen? && sh.cache == map[] && c.TxId() in sh.tickets
    requires Refused(c.call, Some(sh.tickets[c.TxId()]))
    ensures var found := Some(sh.tickets[c.TxId()]);
            var c1 := c.(pc := Search);
            var c2 := c.(pc := Remember, seen := found);
            && CanRespond(sh, c, newId) && Respond(sh, c, newId, at) == (sh, c1)
            && CanRespond(sh, c1, newId) && Respond(sh, c1, newId, at) == (sh, c2)
            && CanRespond(sh, c2, newId)
            && Respond(sh, c2, newId, at) == (sh.(cache := map[c.TxId() := found.value.status]),
                                              c2.(pc := Answered(Duplicate)))
  {
    hide Refused, Screened, Vacant, LiveWalletExists;
  }

  /** A screening entry answers the call at once; without it the search finds the ticket and the call gives the
      same answer. */
  lemma TwinScreened(s: State, path: seq<State>, a: Action) returns (longer: seq<State>)
    requires Calm(s) && CalmPath(path) && Twin(s, Last(path)) && Enabled(s, a) && a.Proceed?
    requires s.clients[a.cid].pc.Screen? && Respond(s.shared, s.clients[a.cid], a.newId, a.at).1.pc.Answered?
    ensures CalmPath(longer) && path <= longer && Twin(Apply(s, a), Last(longer))
  {
    var c, t := s.clients[a.cid], Last(path);
    ScreenedIsRefused(s, c);
    assert Apply(s, a) == s.(clients := s.clients[a.cid := c.(pc := Answered(Duplicate))]);
    var c' := c.(pc := Answered(Duplicate), seen := Some(t.shared.tickets[c.TxId()]));
    TwinClient(s, t, a.cid, s.shared, c.(pc := Answered(Duplicate)), c', s.ready);
    BareScreening(t.shared, t.clients[a.cid], a.newId, a.at);
    assert t.clients[a.cid].call == c.call && t.clients[a.cid].seen == c.seen;
    hide Calm, NextNoFault, Enabled, Apply, Respond, CanRespond, Screened, Refused, Twin;
    longer := BareCall(path, a);
  }

  lemma BareCall(path: seq<State>, a: Action) returns (longer: seq<State>)
    requires CalmPath(path) && a.Proceed? && a.cid in Last(path).clients && Last(path).shared.cache == map[]
    requires var c := Last(path).clients[a.cid];
             && c.pc.Screen? && c.TxId() in Last(path).shared.tickets
             && Refused(c.call, Some(Last(path).shared.tickets[c.TxId()]))
    ensures CalmPath(longer) && path <= longer
    ensures var t := Last(path);
            var c := t.clients[a.cid];
            Last(longer) == t.(clients := t.clients[a.cid :=
                               c.(pc := Answered(Duplicate), seen := Some(t.shared.tickets[c.TxId()]))])
  {
    hide NextNoFault, Respond, CanRespond, Refused;
    var t := Last(path);
    var c := t.clients[a.cid];
    BareScreening(t.shared, c, a.newId, a.at);
    var found := Some(t.shared.tickets[c.TxId()]);
    var one := CallTakes(path, a, t.shared, c.(pc := Search));
    var two := CallTakes(one, a, t.shared, c.(pc := Remember, seen := found));
    var cached := t.shared.(cache := map[c.TxId() := found.value.status]);
    var three := CallTakes(two, a, cached, c.(pc := Answered(Duplicate), seen := found));
    longer := Longer(three, Expire(c.TxId()));
    assert Last(longer).shared.cache == map[];
    assert Last(longer).clients == t.clients[a.cid := c.(pc := Answered(Duplicate), seen := found)];
  }

  // ---------------------------------------------------------------- everything else

  /** The broker, the callers and database aborts do not see the cache. */
  lemma TwinMessage(s: State, t: State, a: Action)
    requires Twin(s, t) && Enabled(s, a) && !Faulty(a) && !a.Step? && !a.Proceed? && !a.Expire?
    ensures Enabled(t, a) && Twin(Apply(s, a), Apply(t, a))
  {
    if a.DbAbort? {
      TwinResume(s, t, a.wid, (s.shared, Fail(s.workers[a.wid])), (t.shared, Fail(s.workers[a.wid])));
    } else if a.Copy? {
      if InFlight(s, a.message) { TwinInFlight(s, t, a.message); }
      hide InFlight;
    } else if a.Deliver? {
      TwinDelivers(s, t, a);
    } else if a.Retire? {
      TwinRetires(s, t, a);
    } else if a.Settle? {
      TwinSettles(s, t, a);
    } else {
      hide InFlight, TwinWorkers;
    }
  }

  lemma TwinInFlight(s: State, t: State, m: Message)
    requires Twin(s, t) && InFlight(s, m)
    ensures InFlight(t, m)
  {
    var wid :| wid in s.workers && Carries(s.workers[wid], m);
    assert Carries(t.workers[wid], m);
  }

  lemma TwinDelivers(s: State, t: State, a: Action)
    requires Twin(s, t) && Enabled(s, a) && a.Deliver?
    ensures Enabled(t, a) && Twin(Apply(s, a), Apply(t, a))
  {
    hide SameCalls;
    var w := NewWorker(a.message);
    assert TwinWorkers(s.workers[a.wid := w]) == TwinWorkers(s.workers)[a.wid := w];
  }

  lemma TwinRetires(s: State, t: State, a: Action)
    requires Twin(s, t) && Enabled(s, a) && a.Retire?
    ensures Enabled(t, a) && Twin(Apply(s, a), Apply(t, a))
  {
    hide SameCalls, TwinWorkers;
    TwinWithout(s.workers, a.wid);
  }

  lemma TwinSettles(s: State, t: State, a: Action)
    requires Twin(s, t) && Enabled(s, a) && !Faulty(a) && a.Settle?
    ensures Enabled(t, a) && Twin(Apply(s, a), Apply(t, a))
  {
    hide SameCalls, AfterThrow, TwinWorkers;
    TwinWithout(s.workers, a.wid);
  }

  lemma TwinWithout(ws: map<int, Worker>, wid: int)
    requires wid in ws && ws[wid].pc.Done?
    ensures TwinWorkers(ws - {wid}) == TwinWorkers(ws) - {wid}
    ensures wid in TwinWorkers(ws) && TwinWorkers(ws)[wid] == ws[wid]
  {
  }

  /** Whatever a state does next, its twin can do too, in a few steps. */
  lemma TwinFollows(s: State, path: seq<State>, a: Action) returns (longer: seq<State>)
    requires Inv(s) && Calm(s) && CalmPath(path) && Twin(s, Last(path)) && Enabled(s, a) && !Faulty(a)
    ensures CalmPath(longer) && path <= longer && Twin(Apply(s, a), Last(longer))
  {
    hide Inv, Calm, NextNoFault, Enabled, Twin;
    if a.Step? {
      longer := TwinStep(s, path, a);
    } else if a.Proceed? {
      longer := TwinProceed(s, path, a);
    } else if a.Expire? {
      longer := path;
      TwinExpiry(s, Last(path), a);
    } else {
      TwinMessage(s, Last(path), a);
      longer := Longer(path, a);
    }
  }

  lemma TwinExpiry(s: State, t: State, a: Action)
    requires Twin(s, t) && Enabled(s, a) && a.Expire?
    ensures Twin(Apply(s, a), t)
  {
    hide SameCalls, TwinWorkers;
  }

  // ---------------------------------------------------------------- runs

  /** State i of the run has its twin at place at[i] of the other run. */
  ghost predicate TwinRuns(run: seq<State>, twin: seq<State>, at: seq<nat>) {
    && |at| == |run|
    && (forall i :: 0 <= i < |run| ==> at[i] < |twin| && Twin(run[i], twin[at[i]]))
    && (forall i, j :: 0 <= i < j < |run| ==> at[i] <= at[j])
  }

  /** Cache transparency of whole interleaved runs: every no-fault run has a no-fault twin that goes through
      the same tables, history, queues and throws, in the same order, and has no cache entry there. */
  lemma EveryRunHasACachelessTwin(run: seq<State>) returns (twin: seq<State>, at: seq<nat>)
    requires NoFaultRun(run)
    ensures NoFaultRun(twin) && TwinRuns(run, twin, at) && twin[0] == run[0]
  {
    twin, at := TwinPrefix(run, |run|);
    assert run[..|run|] == run;
  }

  lemma {:induction false} TwinPrefix(run: seq<State>, n: nat) returns (twin: seq<State>, at: seq<nat>)
    requires NoFaultRun(run) && 0 < n <= |run|
    ensures NoFaultRun(twin) && TwinRuns(run[..n], twin, at) && twin[0] == run[0] && at[n - 1] == |twin| - 1
  {
    hide Inv, Calm, Enabled, Apply, Twin;
    if n == 1 {
      twin, at := [run[0]], [0];
      StartIsItsTwin(run[0]);
    } else {
      var before, placed := TwinPrefix(run, n - 1);
      EveryNoFaultRunIsCalm(run, n - 2);
      var s, s' := run[n - 2], run[n - 1];
      assert NextNoFault(s, s');
      var a :| Enabled(s, a) && !Faulty(a) && s' == Apply(s, a);
      assert run[..n - 1][n - 2] == s;
      twin := TwinFollows(s, before, a);
      at := placed + [|twin| - 1];
      forall i | 0 <= i < n ensures at[i] < |twin| && Twin(run[..n][i], twin[at[i]]) {
        if i < n - 1 { assert Twin(run[..n - 1][i], before[placed[i]]); }
      }
    }
  }

  lemma StartIsItsTwin(s: State)
    requires Init(s)
    ensures Twin(s, s)
  {
  }
}
