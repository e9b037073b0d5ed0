/** The retrying consumer: what becomes of a message whose handler returns or throws, for an
    arbitrary handler. */
module Retry {

  const MAX_ATTEMPTS := 2

  /** A message and its x-attempts header (an absent header counts as 0). */
  datatype Envelope<T> = Envelope(payload: T, attempts: nat)

  datatype Verdict = Again(attempts: nat) | DeadLetter(attempts: nat)

  /** The header goes up by one; the third failure is the last. */
  function AfterThrow(attempts: nat): Verdict {
    if attempts >= MAX_ATTEMPTS then DeadLetter(attempts + 1) else Again(attempts + 1)
  }

  /** What a publish adds to a queue: nothing when the broker is out of reach. */
  function Sent<T(==)>(e: Envelope<T>, reachable: bool): multiset<Envelope<T>> {
    if reachable then multiset{e} else multiset{}
  }

  /** What a delivery puts back into the queue, and into the dead-letter queue. */
  function Requeued<T(==)>(e: Envelope<T>, threw: bool, reachable: bool): multiset<Envelope<T>> {
    if threw && AfterThrow(e.attempts).Again? then Sent(Envelope(e.payload, e.attempts + 1), reachable) else multiset{}
  }

  function Buried<T(==)>(e: Envelope<T>, threw: bool, reachable: bool): multiset<Envelope<T>> {
    if threw && AfterThrow(e.attempts).DeadLetter? then Sent(Envelope(e.payload, e.attempts + 1), reachable)
    else multiset{}
  }

  /** What takes the place of a message whose handler threw: with the broker in reach one copy with the next header,
      in the queue before the third failure and dead from then on; otherwise nothing at all. */
  lemma RepublishMeans<T>(e: Envelope<T>, reachable: bool)
    ensures Requeued(e, true, reachable) ==
            if reachable && e.attempts < 2 then multiset{Envelope(e.payload, e.attempts + 1)} else multiset{}
    ensures Buried(e, true, reachable) ==
            if reachable && e.attempts >= 2 then multiset{Envelope(e.payload, e.attempts + 1)} else multiset{}
  {
  }

  lemma NothingThrown<T>(e: Envelope<T>, reachable: bool)
    ensures Requeued(e, false, reachable) == Buried(e, false, reachable) == multiset{}
  {
  }

  lemma Verdicts<T>(e: Envelope<T>, reachable: bool)
    ensures Requeued(e, true, reachable) ==
            if e.attempts >= MAX_ATTEMPTS then multiset{} else Sent(Envelope(e.payload, e.attempts + 1), reachable)
    ensures Buried(e, true, reachable) ==
            if e.attempts >= MAX_ATTEMPTS then Sent(Envelope(e.payload, e.attempts + 1), reachable) else multiset{}
  {
    hide Sent;
  }

  lemma PutNothing<T>(ms: multiset<Envelope<T>>)
    ensures ms + multiset{} == ms
  {
  }

  lemma PutAndTake<T>(ms: multiset<Envelope<T>>, m: Envelope<T>)
    ensures ms + multiset{m} - multiset{m} == ms
  {
  }

  // ---------------------------------------------------------------- the service

  class RabbitMQService<T(==)> {
    var ready: multiset<Envelope<T>>    // waiting in the queue
    var unacked: multiset<Envelope<T>>  // handed out, not acknowledged
    var dead: multiset<Envelope<T>>     // the wallet_funding_dead queue

    constructor ()
      ensures ready == unacked == dead == multiset{}
    {
      ready, unacked, dead := multiset{}, multiset{}, multiset{};
    }

    /** A failed publish is logged and swallowed. */
    method SendToQueue(e: Envelope<T>, reachable: bool)
      modifies this`ready
      ensures ready == old(ready) + Sent(e, reachable)
    {
      if reachable { ready := ready + multiset{e}; }
    }

    method SendToDeadLetters(e: Envelope<T>, reachable: bool)
      modifies this`dead
      ensures dead == old(dead) + Sent(e, reachable)
    {
      if reachable { dead := dead + multiset{e}; }
    }

    method Ack(e: Envelope<T>)
      modifies this`unacked
      ensures unacked == old(unacked) - multiset{e}
    {
      unacked := unacked - multiset{e};
    }

    /** The catch block: a copy with a higher header, or a dead letter, takes the place of the message. */
    method Replace(e: Envelope<T>, reachable: bool)
      modifies this
      ensures unacked == old(unacked) - multiset{e}
      ensures ready == old(ready) + Requeued(e, true, reachable)
      ensures dead == old(dead) + Buried(e, true, reachable)
    {
      hide Sent, Requeued, Buried;
      PutNothing(ready);
      PutNothing(dead);
      Verdicts(e, reachable);
      if e.attempts >= MAX_ATTEMPTS {
        SendToDeadLetters(Envelope(e.payload, e.attempts + 1), reachable);
      } else {
        SendToQueue(Envelope(e.payload, e.attempts + 1), reachable);
      }
      Ack(e);
    }

    /** One delivery. A message whose handler returned is never acknowledged; one whose handler threw
        is replaced by a copy with a higher header, or by a dead letter. */
    method Consume(e: Envelope<T>, threw: bool, reachable: bool)
      requires e in ready
      modifies this
      ensures unacked == if threw then old(unacked) else old(unacked) + multiset{e}
      ensures ready == old(ready) - multiset{e} + Requeued(e, threw, reachable)
      ensures dead == old(dead) + Buried(e, threw, reachable)
      ensures threw && !reachable ==> ready == old(ready) - multiset{e} && dead == old(dead)
    {
      NothingThrown(e, reachable);
      RepublishMeans(e, reachable);
      PutNothing(ready - multiset{e});
      PutNothing(dead);
      hide Requeued, Buried;
      PutAndTake(unacked, e);
      ready, unacked := ready - multiset{e}, unacked + multiset{e};
      if threw { Replace(e, reachable); }
    }
  }

  // ---------------------------------------------------------------- the protocol

  /** Messages are traced by the original publish they descend from. `superseded` are those already
      replaced and waiting for their ack; `called` and `raised` count handler calls and throws. */
  type Trace = Envelope<nat>

  datatype Protocol = Protocol(
    published: nat,
    ready: multiset<Trace>, running: multiset<Trace>, failing: multiset<Trace>,
    superseded: multiset<Trace>, settled: multiset<Trace>, dead: multiset<Trace>,
    called: multiset<Trace>, raised: multiset<Trace>)

  datatype Move =
    | Publish
    | Start(m: Trace) | Return(m: Trace) | Raise(m: Trace) | Replace(m: Trace) | Acknowledge(m: Trace)

  predicate Possible(q: Protocol, a: Move) {
    match a
    case Publish => true
    case Start(m) => m in q.ready
    case Return(m) => m in q.running
    case Raise(m) => m in q.running
    case Replace(m) => m in q.failing
    case Acknowledge(m) => m in q.superseded
  }

  function Make(q: Protocol, a: Move): Protocol {
    match a
    case Publish => q.(published := q.published + 1, ready := q.ready + multiset{Envelope(q.published, 0)})
    case Start(m) =>
      q.(ready := q.ready - multiset{m}, running := q.running + multiset{m}, called := q.called + multiset{m})
    case Return(m) => q.(running := q.running - multiset{m}, settled := q.settled + multiset{m})
    case Raise(m) =>
      q.(running := q.running - multiset{m}, failing := q.failing + multiset{m}, raised := q.raised + multiset{m})
    case Replace(m) =>
      var q' := q.(failing := q.failing - multiset{m}, superseded := q.superseded + multiset{m});
      (match AfterThrow(m.attempts)
       case Again(n) => q'.(ready := q.ready + multiset{Envelope(m.payload, n)})
       case DeadLetter(n) => q'.(dead := q.dead + multiset{Envelope(m.payload, n)}))
    case Acknowledge(m) => q.(superseded := q.superseded - multiset{m})
  }

  const IDLE :=
    Protocol(0, multiset{}, multiset{}, multiset{}, multiset{}, multiset{}, multiset{}, multiset{}, multiset{})

  ghost predicate Moves(q: Protocol, q': Protocol) {
    exists a :: Possible(q, a) && q' == Make(q, a)
  }

  /** A step of the consumers: anything but a new publish. */
  ghost predicate Consumes(q: Protocol, q': Protocol) {
    exists a :: Possible(q, a) && !a.Publish? && q' == Make(q, a)
  }

  ghost predicate ProtocolRun(run: seq<Protocol>) {
    |run| > 0 && run[0] == IDLE && forall i :: 0 <= i < |run| - 1 ==> Moves(run[i], run[i + 1])
  }

  /** How many messages of one lineage a multiset holds. */
  function Of(ms: multiset<Trace>, o: nat): nat {
    ms[Envelope(o, 0)] + ms[Envelope(o, 1)] + ms[Envelope(o, 2)] + ms[Envelope(o, 3)]
  }

  /** Their headers added up. */
  function Headers(ms: multiset<Trace>, o: nat): nat {
    ms[Envelope(o, 1)] + 2 * ms[Envelope(o, 2)] + 3 * ms[Envelope(o, 3)]
  }

  function Live(q: Protocol, o: nat): nat {
    Of(q.ready, o) + Of(q.running, o) + Of(q.failing, o) + Of(q.settled, o) + Of(q.dead, o)
  }

  predicate HeadersBelow(ms: multiset<Trace>, bound: nat, published: nat) {
    forall m | m in ms :: m.attempts < bound && m.payload < published
  }

  predicate ThirdFailures(ms: multiset<Trace>, published: nat) {
    forall m | m in ms :: m.attempts == 3 && m.payload < published
  }

  predicate HeadersOk(q: Protocol) {
    && HeadersBelow(q.ready, 3, q.published) && HeadersBelow(q.running, 3, q.published)
    && HeadersBelow(q.failing, 3, q.published) && HeadersBelow(q.settled, 3, q.published)
    && HeadersBelow(q.superseded, 3, q.published)
    && HeadersBelow(q.called, 3, q.published) && HeadersBelow(q.raised, 3, q.published)
    && ThirdFailures(q.dead, q.published)
  }

  /** Throws so far of one lineage, read off the header of its live message. */
  function Failures(q: Protocol, o: nat): nat {
    Headers(q.ready, o) + Headers(q.running, o) + Headers(q.failing, o) + Headers(q.settled, o) + Headers(q.dead, o)
    + Of(q.failing, o)
  }

  /** One live message; its header and place account for every call and every throw. */
  predicate LineageOk(q: Protocol, o: nat) {
    && Live(q, o) == 1
    && Of(q.raised, o) == Failures(q, o)
    && Of(q.called, o) == Failures(q, o) + Of(q.running, o) + Of(q.settled, o)
  }

  ghost predicate Tidy(q: Protocol) {
    HeadersOk(q) && forall o: nat :: o < q.published ==> LineageOk(q, o)
  }

  lemma Added(ms: multiset<Trace>, m: Trace, o: nat)
    requires m.attempts <= 3
    ensures Of(ms + multiset{m}, o) == Of(ms, o) + if m.payload == o then 1 else 0
    ensures Headers(ms + multiset{m}, o) == Headers(ms, o) + if m.payload == o then m.attempts else 0
  {
  }

  lemma Removed(ms: multiset<Trace>, m: Trace, o: nat)
    requires m.attempts <= 3 && m in ms
    ensures Of(ms, o) == Of(ms - multiset{m}, o) + if m.payload == o then 1 else 0
    ensures Headers(ms, o) == Headers(ms - multiset{m}, o) + if m.payload == o then m.attempts else 0
  {
    Added(ms - multiset{m}, m, o);
    assert ms - multiset{m} + multiset{m} == ms;
  }

  lemma MoveKeepsLineage(q: Protocol, a: Move, o: nat)
    requires LineageOk(q, o) && Possible(q, a) && o < q.published
    requires a.Publish? || a.m.attempts < 3
    ensures LineageOk(Make(q, a), o)
  {
    hide Of, Headers;
    match a {
      case Publish => Added(q.ready, Envelope(q.published, 0), o);
      case Start(m) => Removed(q.ready, m, o); Added(q.running, m, o); Added(q.called, m, o);
      case Return(m) => Removed(q.running, m, o); Added(q.settled, m, o);
      case Raise(m) => Removed(q.running, m, o); Added(q.failing, m, o); Added(q.raised, m, o);
      case Replace(m) => ReplaceKeepsLineage(q, m, o);
      case Acknowledge(m) =>
    }
  }

  lemma ReplaceKeepsLineage(q: Protocol, m: Trace, o: nat)
    requires LineageOk(q, o) && m in q.failing && m.attempts < 3
    ensures LineageOk(Make(q, Replace(m)), o)
  {
    hide Of, Headers;
    Removed(q.failing, m, o);
    var next := Envelope(m.payload, m.attempts + 1);
    if m.attempts >= MAX_ATTEMPTS { Added(q.dead, next, o); } else { Added(q.ready, next, o); }
  }

  lemma BelowAfter(ms: multiset<Trace>, m: Trace, published: nat)
    requires HeadersBelow(ms, 3, published)
    ensures HeadersBelow(ms, 3, published + 1) && HeadersBelow(ms - multiset{m}, 3, published)
    ensures m.attempts < 3 && m.payload < published ==> HeadersBelow(ms + multiset{m}, 3, published)
    ensures m in ms ==> m.attempts < 3 && m.payload < published
  {
  }

  lemma MoveKeepsHeaders(q: Protocol, a: Move)
    requires HeadersOk(q) && Possible(q, a)
    ensures HeadersOk(Make(q, a)) && (a.Publish? || a.m.attempts < 3)
  {
    hide HeadersBelow, ThirdFailures;
    var m := if a.Publish? then Envelope(q.published, 0) else a.m;
    var n := q.published;
    BelowAfter(q.ready, m, n); BelowAfter(q.running, m, n); BelowAfter(q.failing, m, n);
    BelowAfter(q.superseded, m, n); BelowAfter(q.settled, m, n); BelowAfter(q.called, m, n); BelowAfter(q.raised, m, n);
    DeadAfter(q.dead, Envelope(m.payload, m.attempts + 1), n);
    if a.Publish? { BelowAfter(q.ready, m, n + 1); }
    if a.Replace? { BelowAfter(q.ready, Envelope(m.payload, m.attempts + 1), n); }
  }

  lemma DeadAfter(ms: multiset<Trace>, m: Trace, published: nat)
    requires ThirdFailures(ms, published)
    ensures ThirdFailures(ms, published + 1)
    ensures m.attempts == 3 && m.payload < published ==> ThirdFailures(ms + multiset{m}, published)
  {
  }

  lemma NewLineageOk(q: Protocol)
    requires HeadersOk(q)
    ensures LineageOk(Make(q, Publish), q.published)
  {
    Added(q.ready, Envelope(q.published, 0), q.published);
  }

  lemma MoveKeepsTidy(q: Protocol, a: Move)
    requires Tidy(q) && Possible(q, a)
    ensures Tidy(Make(q, a))
  {
    hide LineageOk, HeadersOk;
    MoveKeepsHeaders(q, a);
    var q' := Make(q, a);
    forall o: nat | o < q'.published ensures LineageOk(q', o) {
      if o < q.published { MoveKeepsLineage(q, a, o); } else { NewLineageOk(q); }
    }
  }

  lemma {:induction false} EveryRunIsTidy(run: seq<Protocol>, i: nat)
    requires ProtocolRun(run) && i < |run|
    ensures Tidy(run[i])
  {
    if i > 0 {
      EveryRunIsTidy(run, i - 1);
      assert Moves(run[i - 1], run[i]);
      var a :| Possible(run[i - 1], a) && run[i] == Make(run[i - 1], a);
      MoveKeepsTidy(run[i - 1], a);
    }
  }

  /** Each original has exactly one live descendant at all times, causes at most three handler calls,
      and is dead-lettered exactly when three calls have thrown and the third is settled. */
  lemma LineageGuarantee(run: seq<Protocol>, i: nat, o: nat)
    requires ProtocolRun(run) && i < |run| && o < run[i].published
    ensures Live(run[i], o) == 1
    ensures Of(run[i].raised, o) <= Of(run[i].called, o) <= 3
    ensures Of(run[i].dead, o) == 1 <==> Of(run[i].raised, o) == 3 && Of(run[i].failing, o) == 0
    ensures Of(run[i].settled, o) == 1 ==> Of(run[i].called, o) == Of(run[i].raised, o) + 1
  {
    EveryRunIsTidy(run, i);
    var q := run[i];
    assert LineageOk(q, o);
    assert forall ms, n: nat | HeadersBelow(ms, 3, n) :: ms[Envelope(o, 3)] == 0;
    assert q.dead[Envelope(o, 0)] == 0 && q.dead[Envelope(o, 1)] == 0 && q.dead[Envelope(o, 2)] == 0;
  }

  // ---------------------------------------------------------------- termination

  datatype Stage = Waiting | Active | Failing

  /** Moves left to a message at a stage: four per attempt to come. */
  function MovesLeft(stage: Stage, attempts: nat): nat {
    match stage
    case Waiting => if attempts == 0 then 12 else if attempts == 1 then 8 else if attempts == 2 then 4 else 0
    case Active => if attempts == 0 then 11 else if attempts == 1 then 7 else if attempts == 2 then 3 else 0
    case Failing => if attempts == 0 then 10 else if attempts == 1 then 6 else if attempts == 2 then 2 else 0
  }

  function Weigh(ms: multiset<Trace>, o: nat, stage: Stage): nat {
    match stage
    case Waiting => 12 * ms[Envelope(o, 0)] + 8 * ms[Envelope(o, 1)] + 4 * ms[Envelope(o, 2)]
    case Active => 11 * ms[Envelope(o, 0)] + 7 * ms[Envelope(o, 1)] + 3 * ms[Envelope(o, 2)]
    case Failing => 10 * ms[Envelope(o, 0)] + 6 * ms[Envelope(o, 1)] + 2 * ms[Envelope(o, 2)]
  }

  function Weight(q: Protocol, o: nat): nat {
    Weigh(q.ready, o, Waiting) + Weigh(q.running, o, Active) + Weigh(q.failing, o, Failing) + Of(q.superseded, o)
  }

  /** Remaining attempts plus pending settlements, over the first n originals. */
  function Measure(q: Protocol, n: nat): nat {
    if n == 0 then 0 else Measure(q, n - 1) + Weight(q, n - 1)
  }

  lemma AddedWeight(ms: multiset<Trace>, m: Trace, o: nat, stage: Stage)
    ensures Weigh(ms + multiset{m}, o, stage) ==
            Weigh(ms, o, stage) + if m.payload == o then MovesLeft(stage, m.attempts) else 0
  {
  }

  lemma RemovedWeight(ms: multiset<Trace>, m: Trace, o: nat, stage: Stage)
    requires m in ms
    ensures Weigh(ms, o, stage) == Weigh(ms - multiset{m}, o, stage)
            + if m.payload == o then MovesLeft(stage, m.attempts) else 0
  {
    AddedWeight(ms - multiset{m}, m, o, stage);
    assert ms - multiset{m} + multiset{m} == ms;
  }

  lemma MoveLightens(q: Protocol, a: Move, o: nat)
    requires Possible(q, a) && !a.Publish? && a.m.attempts < 3
    ensures Weight(Make(q, a), o) < Weight(q, o) || (a.m.payload != o && Weight(Make(q, a), o) == Weight(q, o))
  {
    hide Weigh, Of, Headers;
    var m := a.m;
    if a.Start? { RemovedWeight(q.ready, m, o, Waiting); AddedWeight(q.running, m, o, Active); }
    if a.Return? { RemovedWeight(q.running, m, o, Active); }
    if a.Raise? { RemovedWeight(q.running, m, o, Active); AddedWeight(q.failing, m, o, Failing); }
    if a.Replace? {
      RemovedWeight(q.failing, m, o, Failing);
      Added(q.superseded, m, o);
      AddedWeight(q.ready, Envelope(m.payload, m.attempts + 1), o, Waiting);
    }
    if a.Acknowledge? { Removed(q.superseded, m, o); }
  }

  lemma {:induction false} MeasureDrops(q: Protocol, a: Move, n: nat)
    requires Possible(q, a) && !a.Publish? && a.m.attempts < 3
    ensures Measure(Make(q, a), n) <= Measure(q, n)
    ensures a.m.payload < n ==> Measure(Make(q, a), n) < Measure(q, n)
  {
    hide Weight, Make;
    if n > 0 {
      MeasureDrops(q, a, n - 1);
      MoveLightens(q, a, n - 1);
    }
  }

  ghost predicate Consumption(run: seq<Protocol>) {
    |run| > 0 && Tidy(run[0]) && forall i :: 0 <= i < |run| - 1 ==> Consumes(run[i], run[i + 1])
  }

  /** Without new publishes the consumers stop: a run has no more steps than the measure it starts with. */
  lemma {:induction false} RetriesTerminate(run: seq<Protocol>, i: nat)
    requires Consumption(run) && i < |run|
    ensures Tidy(run[i]) && run[i].published == run[0].published
    ensures Measure(run[i], run[0].published) + i <= Measure(run[0], run[0].published)
  {
    hide Tidy, HeadersOk, Weight, Measure, Possible, Make;
    if i > 0 {
      RetriesTerminate(run, i - 1);
      assert Consumes(run[i - 1], run[i]);
      var a :| Possible(run[i - 1], a) && !a.Publish? && run[i] == Make(run[i - 1], a);
      ConsumptionStep(run[i - 1], a);
    }
  }

  lemma ConsumptionStep(q: Protocol, a: Move)
    requires Tidy(q) && Possible(q, a) && !a.Publish?
    ensures Tidy(Make(q, a)) && Make(q, a).published == q.published
    ensures Measure(Make(q, a), q.published) < Measure(q, q.published)
  {
    MoveKeepsTidy(q, a);
    MoveKeepsHeaders(q, a);
    MovesKnownLineage(q, a);
    MeasureDrops(q, a, q.published);
    hide Tidy, HeadersOk, Measure, Possible;
  }

  lemma MovesKnownLineage(q: Protocol, a: Move)
    requires HeadersOk(q) && Possible(q, a) && !a.Publish?
    ensures a.m.payload < q.published
  {
  }

  /** And they stop with nothing left to do only when every lineage is settled or dead. */
  lemma QuietMeansFinished(q: Protocol, o: nat)
    requires Tidy(q) && o < q.published
    requires forall a :: Possible(q, a) ==> a.Publish?
    ensures Of(q.settled, o) + Of(q.dead, o) == 1
  {
    assert LineageOk(q, o);
    forall m: Trace ensures q.ready[m] == 0 && q.running[m] == 0 && q.failing[m] == 0 {
      assert !Possible(q, Start(m)) && !Possible(q, Return(m)) && !Possible(q, Replace(m));
    }
  }

  /** The effect of one call of the service's Consume, in the protocol's terms. */
  function Delivered(q: Protocol, m: Trace, threw: bool): Protocol {
    q.(ready := q.ready - multiset{m} + Requeued(m, threw, true),
       dead := q.dead + Buried(m, threw, true),
       settled := if threw then q.settled else q.settled + multiset{m},
       called := q.called + multiset{m},
       raised := if threw then q.raised + multiset{m} else q.raised)
  }

  /** A call of Consume, with publishes succeeding, is a whole delivery of the protocol: start and
      return, or start, raise, replace and acknowledge. */
  lemma ConsumeIsProtocol(q: Protocol, m: Trace, threw: bool)
    requires m in q.ready
    ensures Delivered(q, m, threw) ==
            if threw then Make(Make(Make(Make(q, Start(m)), Raise(m)), Replace(m)), Acknowledge(m))
            else Make(Make(q, Start(m)), Return(m))
  {
    hide Delivered, Make;
    if threw { ThrowIsProtocol(q, m); } else { ReturnIsProtocol(q, m); }
  }

  lemma ReturnIsProtocol(q: Protocol, m: Trace)
    requires m in q.ready
    ensures Delivered(q, m, false) == Make(Make(q, Start(m)), Return(m))
  {
    hide Requeued, Buried;
    NothingThrown(m, true);
    PutAndTake(q.running, m);
    PutNothing(q.ready - multiset{m});
    PutNothing(q.dead);
  }

  lemma ReplaceMakes(q: Protocol, m: Trace)
    ensures Make(q, Replace(m)) ==
            q.(failing := q.failing - multiset{m}, superseded := q.superseded + multiset{m},
               ready := q.ready + Requeued(m, true, true), dead := q.dead + Buried(m, true, true))
  {
    Verdicts(m, true);
    hide Requeued, Buried;
    PutNothing(q.ready);
    PutNothing(q.dead);
  }

  lemma ThrowIsProtocol(q: Protocol, m: Trace)
    requires m in q.ready
    ensures Delivered(q, m, true) == Make(Make(Make(Make(q, Start(m)), Raise(m)), Replace(m)), Acknowledge(m))
  {
    hide Requeued, Buried;
    var q2 := Make(Make(q, Start(m)), Raise(m));
    PutAndTake(q.running, m);
    PutAndTake(q.failing, m);
    PutAndTake(q.superseded, m);
    ReplaceMakes(q2, m);
  }

  // ---------------------------------------------------------------- the service follows the protocol

  ghost predicate Reachable(q: Protocol) {
    exists run :: ProtocolRun(run) && run[|run| - 1] == q
  }

  lemma MoveIsReachable(q: Protocol, a: Move)
    requires Reachable(q) && Possible(q, a)
    ensures Reachable(Make(q, a))
  {
    hide Possible, Make;
    var run :| ProtocolRun(run) && run[|run| - 1] == q;
    var longer := run + [Make(q, a)];
    forall i | 0 <= i < |longer| - 1 ensures Moves(longer[i], longer[i + 1]) {
      if i < |run| - 1 { assert Moves(run[i], run[i + 1]); }
    }
    assert ProtocolRun(longer);
  }

  /** The service does not tell apart the stages of a message it has handed out. */
  ghost predicate Abstracts(service: RabbitMQService<nat>, q: Protocol)
    reads service
  {
    && service.ready == q.ready && service.dead == q.dead
    && service.unacked == q.running + q.failing + q.superseded + q.settled
  }

  /** The service stands where some run of the protocol stands. */
  ghost predicate Traced(service: RabbitMQService<nat>)
    reads service
  {
    exists q :: Reachable(q) && Abstracts(service, q)
  }

  lemma DeliveredIsReachable(q: Protocol, m: Trace, threw: bool)
    requires Reachable(q) && m in q.ready
    ensures Reachable(Delivered(q, m, threw))
  {
    hide Reachable;
    ConsumeIsProtocol(q, m, threw);
    MoveIsReachable(q, Start(m));
    var q1 := Make(q, Start(m));
    if threw {
      MoveIsReachable(q1, Raise(m));
      var q2 := Make(q1, Raise(m));
      MoveIsReachable(q2, Replace(m));
      MoveIsReachable(Make(q2, Replace(m)), Acknowledge(m));
    } else {
      MoveIsReachable(q1, Return(m));
    }
  }

  method NewTraced() returns (service: RabbitMQService<nat>)
    ensures fresh(service) && Traced(service)
  {
    service := new RabbitMQService<nat>();
    assert ProtocolRun([IDLE]) && [IDLE][|[IDLE]| - 1] == IDLE;
    assert Abstracts(service, IDLE);
  }

  /** A publish of the service starts the next lineage. */
  method PublishTraced(service: RabbitMQService<nat>, id: nat, ghost q: Protocol)
    requires Reachable(q) && Abstracts(service, q) && id == q.published
    modifies service
    ensures Reachable(Make(q, Publish)) && Abstracts(service, Make(q, Publish))
  {
    MoveIsReachable(q, Publish);
    service.SendToQueue(Envelope(id, 0), true);
  }

  /** A call of Consume, with publishes succeeding, takes the service where a whole delivery takes the
      protocol, so the lineage guarantees hold of the service's own queues. */
  method ConsumeTraced(service: RabbitMQService<nat>, m: Trace, threw: bool, ghost q: Protocol)
    requires Reachable(q) && Abstracts(service, q) && m in service.ready
    modifies service
    ensures Reachable(Delivered(q, m, threw)) && Abstracts(service, Delivered(q, m, threw))
  {
    hide Reachable, Requeued, Buried;
    DeliveredIsReachable(q, m, threw);
    service.Consume(m, threw, true);
  }

  /** What the protocol guarantees, read off the service: every published message is in one place, ready,
      handed out or dead, but for those replaced and about to be acknowledged. */
  lemma ServiceLineage(service: RabbitMQService<nat>, q: Protocol, o: nat)
    requires Reachable(q) && Abstracts(service, q) && o < q.published
    ensures Of(service.ready, o) + Of(service.unacked, o) + Of(service.dead, o) == 1 + Of(q.superseded, o)
    ensures Of(service.dead, o) == 1 <==> Of(q.raised, o) == 3 && Of(q.failing, o) == 0
    ensures Of(q.called, o) <= 3
  {
    var run :| ProtocolRun(run) && run[|run| - 1] == q;
    LineageGuarantee(run, |run| - 1, o);
  }
}
