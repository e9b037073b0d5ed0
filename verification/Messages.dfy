/** What becomes of messages in the running system: none is lost but by a failed republish, and headers go
    up by one with every throw until the dead-letter queue. */
module Messages {
  import opened Domain
  import opened Books
  import opened Retry
  import opened Machine
  import opened AllRuns

  // ---------------------------------------------------------------- all the messages there are

  function MessageOf(w: Worker): Message {
    Envelope(w.job, w.attempts)
  }

  /** The messages being handled. */
  ghost function Running(ws: map<int, Worker>): multiset<Message>
    decreases |ws|
  {
    if ws.Keys == {} then multiset{}
    else var wid := Pick(ws.Keys); Running(ws - {wid}) + multiset{MessageOf(ws[wid])}
  }

  lemma Fewer(ws: map<int, Worker>, a: int, b: int)
    requires a in ws && b in ws && a != b
    ensures ws - {a} - {b} == ws - {b} - {a}
    ensures |ws - {a}| < |ws| && |ws - {b}| < |ws|
  {
    assert (ws - {a}).Keys == ws.Keys - {a} && (ws - {b}).Keys == ws.Keys - {b};
    assert |ws| == |ws.Keys| && |ws - {a}| == |(ws - {a}).Keys| && |ws - {b}| == |(ws - {b}).Keys|;
  }

  lemma {:induction false} RunningWithout(ws: map<int, Worker>, wid: int)
    requires wid in ws
    ensures Running(ws) == Running(ws - {wid}) + multiset{MessageOf(ws[wid])}
    decreases |ws|
  {
    hide MessageOf;
    var first := Pick(ws.Keys);
    if first != wid {
      Fewer(ws, first, wid);
      RunningWithout(ws - {first}, wid);
      RunningWithout(ws - {wid}, first);
    }
  }

  /** Starting a worker, or letting one go on with its message. */
  lemma RunningPut(ws: map<int, Worker>, wid: int, w: Worker)
    ensures wid !in ws ==> Running(ws[wid := w]) == Running(ws) + multiset{MessageOf(w)}
    ensures wid in ws && MessageOf(w) == MessageOf(ws[wid]) ==> Running(ws[wid := w]) == Running(ws)
  {
    hide Running, MessageOf;
    RunningWithout(ws[wid := w], wid);
    assert ws[wid := w] - {wid} == ws - {wid};
    if wid in ws { RunningWithout(ws, wid); } else { assert ws - {wid} == ws; }
  }

  /** Every message the broker or a worker holds. */
  ghost function Carried(s: State): multiset<Message> {
    s.ready + s.unacked + s.dead + Running(s.workers)
  }

  // ---------------------------------------------------------------- one step

  /** What a step adds to the messages there are. */
  function Added(s: State, a: Action): multiset<Message>
    requires Enabled(s, a)
  {
    match a
    case Proceed(cid, _, _) =>
      if s.clients[cid].pc.Publish? then multiset{Envelope(s.clients[cid].call.job, 0)} else multiset{}
    case Copy(m) => multiset{m}
    case Settle(wid, published) =>
      if published then multiset{Envelope(s.workers[wid].job, s.workers[wid].attempts + 1)} else multiset{}
    case _ => multiset{}
  }

  /** And what it takes away. */
  function Removed(s: State, a: Action): multiset<Message>
    requires Enabled(s, a)
  {
    if a.Settle? then multiset{MessageOf(s.workers[a.wid])} else multiset{}
  }

  lemma AdvanceKeepsMessage(sh: Shared, w: Worker, snap: nat, fee: int)
    requires Choosable(sh, w, snap, fee)
    ensures MessageOf(Advance(sh, w, snap, fee).1) == MessageOf(w)
  {
    if InTransaction(w.pc) {
      StatementStep(sh, w, snap, fee);
      hide Advance;
    } else {
      hide AdvanceTransaction, Owned, Find;
    }
  }

  lemma WorkerMessages(s: State, a: Action)
    requires Enabled(s, a) && (a.Step? || a.Fault? || a.DbAbort?)
    ensures Carried(Apply(s, a)) == Carried(s)
  {
    var w := s.workers[a.wid];
    if a.Step? || a.Fault? { AdvanceKeepsMessage(s.shared, w, a.snap, a.fee); }
    hide Running, Advance, Choosable, Unlocked;
    RunningPut(s.workers, a.wid, Apply(s, a).workers[a.wid]);
  }

  lemma TakenUp(s: State, a: Action)
    requires Enabled(s, a) && a.Deliver?
    ensures Carried(Apply(s, a)) == Carried(s)
  {
    hide Running;
    RunningPut(s.workers, a.wid, NewWorker(a.message));
  }

  lemma GivenBack(s: State, a: Action)
    requires Enabled(s, a) && (a.Crash? || a.Retire?)
    ensures Carried(Apply(s, a)) == Carried(s)
  {
    hide Running;
    RunningWithout(s.workers, a.wid);
  }

  /** A worker whose handler threw sends its message back with the next header: twice to the queue, the third
      time to the dead-letter queue. The message is gone if the republish fails. */
  lemma ThrowSendsBack(s: State, wid: int, published: bool)
    requires wid in s.workers && s.workers[wid].pc == Done(Threw)
    ensures var next := Envelope(s.workers[wid].job, s.workers[wid].attempts + 1);
            && Enabled(s, Settle(wid, published))
            && var s' := Apply(s, Settle(wid, published));
               && s'.workers == s.workers - {wid} && s'.unacked == s.unacked && s'.shared == s.shared
               && s'.ready == s.ready
                              + (if published && s.workers[wid].attempts < 2 then multiset{next} else multiset{})
               && s'.dead == s.dead
                             + (if published && s.workers[wid].attempts >= 2 then multiset{next} else multiset{})
  {
    PutNothing(s.ready);
    PutNothing(s.dead);
  }

  lemma Regroup(ready: multiset<Message>, unacked: multiset<Message>, dead: multiset<Message>,
                rest: multiset<Message>, out: multiset<Message>, back: multiset<Message>, buried: multiset<Message>)
    ensures ((ready + back) + unacked + (dead + buried) + rest) + out ==
            (ready + unacked + dead + (rest + out)) + (back + buried)
  {
  }

  lemma Settled(s: State, a: Action)
    requires Enabled(s, a) && a.Settle?
    ensures Carried(Apply(s, a)) + Removed(s, a) == Carried(s) + Added(s, a)
  {
    SettleEnabled(s, a);
    ThrowSendsBack(s, a.wid, a.published);
    RunningWithout(s.workers, a.wid);
    hide Running, Apply, Enabled, MessageOf;
    var w, s' := s.workers[a.wid], Apply(s, a);
    var next := multiset{Envelope(w.job, w.attempts + 1)};
    var back := if a.published && w.attempts < 2 then next else multiset{};
    var buried := if a.published && w.attempts >= 2 then next else multiset{};
    Regroup(s.ready, s.unacked, s.dead, Running(s'.workers), multiset{MessageOf(w)}, back, buried);
    OneOrNone(next, a.published, w.attempts < 2);
  }

  lemma OneOrNone(next: multiset<Message>, published: bool, again: bool)
    ensures (if published && again then next else multiset{}) + (if published && !again then next else multiset{})
            == if published then next else multiset{}
  {
  }

  lemma SettleEnabled(s: State, a: Action)
    requires Enabled(s, a) && a.Settle?
    ensures a.wid in s.workers && s.workers[a.wid].pc == Done(Threw)
  {
  }

  /** The balance of messages: delivery, crash, return and redelivery only move a message; a throw replaces it
      by one with a higher header, unless the republish fails; new ones come from publishes and copies. */
  lemma MessagesBalance(s: State, a: Action)
    requires Enabled(s, a)
    ensures Carried(Apply(s, a)) + Removed(s, a) == Carried(s) + Added(s, a)
  {
    hide Running, Carried;
    if a.Step? || a.Fault? || a.DbAbort? { WorkerMessages(s, a); }
    else if a.Deliver? { TakenUp(s, a); }
    else if a.Crash? || a.Retire? { GivenBack(s, a); }
    else if a.Settle? { Settled(s, a); }
    else { OtherMessages(s, a); }
  }

  lemma OtherMessages(s: State, a: Action)
    requires Enabled(s, a)
    requires !a.Step? && !a.Fault? && !a.DbAbort? && !a.Deliver? && !a.Crash? && !a.Retire? && !a.Settle?
    ensures Carried(Apply(s, a)) + Removed(s, a) == Carried(s) + Added(s, a)
  {
    hide Running, Respond, InFlight;
  }

  /** A worker whose handler returned leaves its message unacknowledged, for ever redeliverable. */
  lemma ReturnNeverAcks(s: State, wid: int)
    requires wid in s.workers && s.workers[wid].pc == Done(Returned)
    ensures var m := Envelope(s.workers[wid].job, s.workers[wid].attempts);
            && Enabled(s, Retire(wid))
            && var s' := Apply(s, Retire(wid));
               && wid !in s'.workers && s'.unacked == s.unacked + multiset{m}
               && s'.ready == s.ready && s'.dead == s.dead && s'.shared == s.shared
               && Enabled(s', Redeliver(m)) && m in Apply(s', Redeliver(m)).ready
  {
  }

  // ---------------------------------------------------------------- jobs over whole runs

  ghost function SomeOf(ms: multiset<Message>): (m: Message)
    requires ms != multiset{}
    ensures m in ms
  {
    var m: Message :| m in ms; m
  }

  /** How many of the messages carry the job, whatever their headers. */
  ghost function Carriers(ms: multiset<Message>, job: Job): nat
    decreases |ms|
  {
    if ms == multiset{} then 0
    else (if SomeOf(ms).payload == job then 1 else 0) + Carriers(ms - multiset{SomeOf(ms)}, job)
  }

  lemma {:induction false} CarriersWithout(ms: multiset<Message>, m: Message, job: Job)
    requires m in ms
    ensures Carriers(ms, job) == (if m.payload == job then 1 else 0) + Carriers(ms - multiset{m}, job)
    decreases |ms|
  {
    var first := SomeOf(ms);
    if first != m {
      CarriersWithout(ms - multiset{first}, m, job);
      CarriersWithout(ms - multiset{m}, first, job);
      assert ms - multiset{first} - multiset{m} == ms - multiset{m} - multiset{first};
    }
  }

  lemma CarriersAdd(ms: multiset<Message>, m: Message, job: Job)
    ensures Carriers(ms + multiset{m}, job) == Carriers(ms, job) + if m.payload == job then 1 else 0
  {
    CarriersWithout(ms + multiset{m}, m, job);
    assert ms + multiset{m} - multiset{m} == ms;
  }

  /** The step starts a new message of the job: a publish of a request, or a duplicate. */
  predicate Multiplies(s: State, a: Action, job: Job)
    requires Enabled(s, a)
  {
    || (a.Proceed? && s.clients[a.cid].pc.Publish? && s.clients[a.cid].call.job == job)
    || (a.Copy? && a.message.payload == job)
  }

  /** The step loses a message of the job: its handler threw and the republish fails, yet it is acknowledged. */
  predicate Loses(s: State, a: Action, job: Job)
    requires Enabled(s, a)
  {
    a.Settle? && !a.published && s.workers[a.wid].job == job
  }

  /** No step but a failed republish lowers the number of messages that carry a job, and only publishes and
      duplicates raise it. */
  lemma CarriersBalance(s: State, a: Action, job: Job)
    requires Enabled(s, a)
    ensures Carriers(Carried(Apply(s, a)), job) ==
            Carriers(Carried(s), job) + (if Multiplies(s, a, job) then 1 else 0) - (if Loses(s, a, job) then 1 else 0)
  {
    hide Carried, Apply, Carriers, Enabled, Added, Removed;
    MessagesBalance(s, a);
    AddedCarriers(s, a, Carried(s), job);
    RemovedCarriers(s, a, Carried(Apply(s, a)), job);
  }

  /** The carriers a step adds: one if it multiplies the job or sends it back after a throw. */
  lemma AddedCarriers(s: State, a: Action, ms: multiset<Message>, job: Job)
    requires Enabled(s, a)
    ensures Carriers(ms + Added(s, a), job) == Carriers(ms, job)
            + if Multiplies(s, a, job) || (a.Settle? && a.published && s.workers[a.wid].job == job) then 1 else 0
  {
    hide Carriers, Respond, InFlight, CanRespond;
    PutNothing(ms);
    if a.Proceed? {
      if s.clients[a.cid].pc.Publish? {
        assert CanRespond(s.shared, s.clients[a.cid], a.newId);
        PublishIsRequest(s.shared, s.clients[a.cid], a.newId);
        CarriersAdd(ms, Envelope(s.clients[a.cid].call.job, 0), job);
      }
    } else if a.Copy? {
      CarriersAdd(ms, a.message, job);
    } else if a.Settle? {
      CarriersAdd(ms, Envelope(s.workers[a.wid].job, s.workers[a.wid].attempts + 1), job);
    }
  }

  lemma PublishIsRequest(sh: Shared, c: Client, newId: int)
    requires CanRespond(sh, c, newId) && c.pc.Publish?
    ensures c.call.Request?
  {
  }

  lemma RemovedCarriers(s: State, a: Action, ms: multiset<Message>, job: Job)
    requires Enabled(s, a)
    ensures Carriers(ms + Removed(s, a), job) == Carriers(ms, job)
            + if a.Settle? && s.workers[a.wid].job == job then 1 else 0
  {
    hide Carriers, InFlight;
    PutNothing(ms);
    if a.Settle? { CarriersAdd(ms, MessageOf(s.workers[a.wid]), job); }
  }

  ghost predicate LosingStep(s: State, s': State, job: Job) {
    exists a :: Enabled(s, a) && s' == Apply(s, a) && Loses(s, a, job)
  }

  /** No job is lost: over any stretch of a run without a failed republish of the job, the number of messages
      that carry it does not go down. */
  lemma {:induction false} NoJobIsLost(run: seq<State>, i: nat, j: nat, job: Job)
    requires Run(run) && i <= j < |run|
    requires forall k :: i <= k < j ==> !LosingStep(run[k], run[k + 1], job)
    ensures Carriers(Carried(run[i]), job) <= Carriers(Carried(run[j]), job)
  {
    hide Enabled, Apply, Carried, Carriers, Loses, Multiplies;
    if i < j {
      NoJobIsLost(run, i, j - 1, job);
      var s, s' := run[j - 1], run[j];
      assert Next(s, s') && !LosingStep(s, s', job);
      var a :| Enabled(s, a) && s' == Apply(s, a);
      CarriersBalance(s, a, job);
    }
  }

  /** In no-fault runs that holds throughout. */
  lemma {:induction false} NoFaultLosesNoJob(run: seq<State>, i: nat, j: nat, job: Job)
    requires NoFaultRun(run) && i <= j < |run|
    ensures Carriers(Carried(run[i]), job) <= Carriers(Carried(run[j]), job)
  {
    hide Enabled, Apply, Carried, Carriers, Multiplies;
    if i < j {
      NoFaultLosesNoJob(run, i, j - 1, job);
      var s, s' := run[j - 1], run[j];
      assert NextNoFault(s, s');
      var a :| Enabled(s, a) && !Faulty(a) && s' == Apply(s, a);
      CarriersBalance(s, a, job);
    }
  }

  // ---------------------------------------------------------------- headers over whole runs

  predicate HeadersWithin(ms: multiset<Message>, low: nat, high: nat) {
    forall m | m in ms :: low <= m.attempts <= high
  }

  predicate HeadersLegal(s: State) {
    && HeadersWithin(s.ready, 0, 2) && HeadersWithin(s.unacked, 0, 2) && HeadersWithin(s.dead, 3, 3)
    && forall wid | wid in s.workers :: s.workers[wid].attempts <= 2
  }

  lemma WithinAfter(ms: multiset<Message>, m: Message, low: nat, high: nat)
    requires HeadersWithin(ms, low, high)
    ensures HeadersWithin(ms - multiset{m}, low, high)
    ensures low <= m.attempts <= high ==> HeadersWithin(ms + multiset{m}, low, high)
    ensures m in ms ==> low <= m.attempts <= high
  {
  }

  lemma HeadersStayLegal(s: State, a: Action)
    requires HeadersLegal(s) && Enabled(s, a)
    ensures HeadersLegal(Apply(s, a))
  {
    hide HeadersLegal, Enabled, Apply;
    if a.Step? || a.Fault? || a.DbAbort? { WorkersKeepHeaders(s, a); }
    else if a.Deliver? || a.Crash? || a.Retire? { HeadersMove(s, a); }
    else if a.Settle? { HeadersRise(s, a); }
    else { HeadersElsewhere(s, a); }
  }

  lemma WorkersKeepHeaders(s: State, a: Action)
    requires HeadersLegal(s) && Enabled(s, a) && (a.Step? || a.Fault? || a.DbAbort?)
    ensures HeadersLegal(Apply(s, a))
  {
    if a.Step? { AdvanceKeepsMessage(s.shared, s.workers[a.wid], a.snap, a.fee); }
    hide HeadersWithin, Advance, Choosable, Unlocked;
  }

  lemma HeadersMove(s: State, a: Action)
    requires HeadersLegal(s) && Enabled(s, a) && (a.Deliver? || a.Crash? || a.Retire?)
    ensures HeadersLegal(Apply(s, a))
  {
    hide HeadersWithin;
    if a.Deliver? {
      WithinAfter(s.ready, a.message, 0, 2);
    } else {
      WithinAfter(s.ready, MessageOf(s.workers[a.wid]), 0, 2);
      WithinAfter(s.unacked, MessageOf(s.workers[a.wid]), 0, 2);
    }
  }

  lemma HeadersRise(s: State, a: Action)
    requires HeadersLegal(s) && Enabled(s, a) && a.Settle?
    ensures HeadersLegal(Apply(s, a))
  {
    hide HeadersWithin;
    var next := Envelope(s.workers[a.wid].job, s.workers[a.wid].attempts + 1);
    WithinAfter(s.ready, next, 0, 2);
    WithinAfter(s.dead, next, 3, 3);
  }

  lemma HeadersElsewhere(s: State, a: Action)
    requires HeadersLegal(s) && Enabled(s, a)
    requires !a.Step? && !a.Fault? && !a.DbAbort? && !a.Deliver? && !a.Crash? && !a.Retire? && !a.Settle?
    ensures HeadersLegal(Apply(s, a))
  {
    hide HeadersWithin, Respond, InFlight;
    if a.Copy? {
      CopiedHeader(s, a.message);
      WithinAfter(s.ready, a.message, 0, 2);
    } else if a.Redeliver? {
      WithinAfter(s.unacked, a.message, 0, 2);
      WithinAfter(s.ready, a.message, 0, 2);
    } else if a.Proceed? && s.clients[a.cid].pc.Publish? {
      WithinAfter(s.ready, Envelope(s.clients[a.cid].call.job, 0), 0, 2);
    }
  }

  lemma CopiedHeader(s: State, m: Message)
    requires HeadersLegal(s) && (m in s.ready || m in s.unacked || InFlight(s, m))
    ensures m.attempts <= 2
  {
    if InFlight(s, m) {
      var wid :| wid in s.workers && Carries(s.workers[wid], m);
    }
  }

  /** In every run, faults included, a message is handled with a header of at most two, and what is dead has
      been sent back three times. */
  lemma {:induction false} HeadersAreLegal(run: seq<State>, i: nat)
    requires Run(run) && i < |run|
    ensures HeadersLegal(run[i])
  {
    hide Enabled, Apply;
    if i == 0 {
      NoMessagesYet(run[0]);
    } else {
      HeadersAreLegal(run, i - 1);
      assert Next(run[i - 1], run[i]);
      var a :| Enabled(run[i - 1], a) && run[i] == Apply(run[i - 1], a);
      HeadersStayLegal(run[i - 1], a);
    }
  }

  lemma NoMessagesYet(s: State)
    requires Init(s)
    ensures HeadersLegal(s)
  {
  }
}
