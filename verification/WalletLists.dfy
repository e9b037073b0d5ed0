/** The user_wallets cache: what a fresh query returns, how far a cached list may lag behind it, and
    the one call that lets it lag further. Operations here run one at a time and without faults. */
module WalletLists {
  import opened Domain
  import opened Books
  import opened History
  import opened Machine
  import opened Handlers

  // ---------------------------------------------------------------- lists

  /** The user's live wallets. */
  predicate Mine(wallets: map<int, Wallet>, userId: int, id: int) {
    id in wallets && wallets[id].userId == userId && !wallets[id].deleted
  }

  predicate SameWallet(seen: Wallet, current: Wallet) {
    seen == current.(balance := seen.balance, version := seen.version)
  }

  predicate Mentions(list: seq<Listed>, id: int) {
    exists i :: 0 <= i < |list| && list[i].id == id
  }

  /** Exactly the user's live wallets, newest first, each once, ids and fixed columns right. Only
      balance and version may be out of date. */
  predicate ListsWallets(list: seq<Listed>, wallets: map<int, Wallet>, userId: int) {
    && (forall i :: 0 <= i < |list| ==>
          Mine(wallets, userId, list[i].id) && SameWallet(list[i].wallet, wallets[list[i].id]))
    && (forall id | id in wallets :: Mine(wallets, userId, id) ==> Mentions(list, id))
    && (forall i, j :: 0 <= i < j < |list| ==>
          list[i].id != list[j].id && list[i].wallet.createdAt >= list[j].wallet.createdAt)
  }

  predicate UpToDate(list: seq<Listed>, wallets: map<int, Wallet>, except: set<int>) {
    forall i :: 0 <= i < |list| && list[i].id in wallets && list[i].id !in except ==>
                  list[i].wallet == wallets[list[i].id]
  }

  /** What findMany, ordered by createdAt descending, returns. */
  predicate FreshList(list: seq<Listed>, wallets: map<int, Wallet>, userId: int) {
    ListsWallets(list, wallets, userId) && UpToDate(list, wallets, {})
  }

  predicate DistinctTimes(wallets: map<int, Wallet>) {
    forall i, j | i in wallets && j in wallets && i != j :: wallets[i].createdAt != wallets[j].createdAt
  }

  /** Strictly newest first, when creation times are distinct. */
  predicate StrictlyNewest(list: seq<Listed>, wallets: map<int, Wallet>) {
    && (forall i :: 0 <= i < |list| ==> list[i].id in wallets)
    && (forall i, j :: 0 <= i < j < |list| ==> wallets[list[i].id].createdAt > wallets[list[j].id].createdAt)
  }

  lemma ListIsStrict(list: seq<Listed>, wallets: map<int, Wallet>, userId: int)
    requires ListsWallets(list, wallets, userId) && DistinctTimes(wallets)
    ensures StrictlyNewest(list, wallets)
  {
  }

  /** With distinct creation times there is only one order: a cached list shows the same ids in the
      same places as a fresh one. */
  lemma OneOrder(a: seq<Listed>, b: seq<Listed>, wallets: map<int, Wallet>, userId: int)
    requires ListsWallets(a, wallets, userId) && ListsWallets(b, wallets, userId) && DistinctTimes(wallets)
    ensures |a| == |b| && forall i :: 0 <= i < |a| ==> a[i].id == b[i].id
  {
    ListIsStrict(a, wallets, userId);
    ListIsStrict(b, wallets, userId);
    ListsCover(a, b, wallets, userId);
    ListsCover(b, a, wallets, userId);
    hide ListsWallets, DistinctTimes, StrictlyNewest, Covered;
    SamePrefix(a, b, wallets, |a|);
    SamePrefix(b, a, wallets, |b|);
  }

  predicate Covered(a: seq<Listed>, b: seq<Listed>) {
    forall i :: 0 <= i < |a| ==> Mentions(b, a[i].id)
  }

  lemma ListsCover(a: seq<Listed>, b: seq<Listed>, wallets: map<int, Wallet>, userId: int)
    requires ListsWallets(a, wallets, userId) && ListsWallets(b, wallets, userId)
    ensures Covered(a, b)
  {
    forall i | 0 <= i < |a| ensures Mentions(b, a[i].id) {
      assert Mine(wallets, userId, a[i].id);
    }
  }

  lemma PlaceIn(a: seq<Listed>, b: seq<Listed>, k: nat) returns (j: nat)
    requires Covered(a, b) && k < |a|
    ensures j < |b| && b[j].id == a[k].id
  {
    assert Mentions(b, a[k].id);
    j :| 0 <= j < |b| && b[j].id == a[k].id;
  }

  lemma {:induction false} SamePrefix(a: seq<Listed>, b: seq<Listed>, wallets: map<int, Wallet>, n: nat)
    requires StrictlyNewest(a, wallets) && StrictlyNewest(b, wallets) && n <= |a|
    requires Covered(a, b) && Covered(b, a)
    ensures n <= |b| && forall i :: 0 <= i < n ==> a[i].id == b[i].id
  {
    hide Covered;
    if n > 0 {
      SamePrefix(a, b, wallets, n - 1);
      var j := PlaceIn(a, b, n - 1);
      var i := PlaceIn(b, a, n - 1);
    }
  }

  /** A query always has a result. */
  lemma FreshListExists(wallets: map<int, Wallet>, userId: int) returns (list: seq<Listed>)
    ensures FreshList(list, wallets, userId)
  {
    var mine := set id | id in wallets && Mine(wallets, userId, id);
    list := SortedList(wallets, mine);
  }

  lemma {:induction false} SortedList(wallets: map<int, Wallet>, ids: set<int>) returns (list: seq<Listed>)
    requires ids <= wallets.Keys
    ensures forall i :: 0 <= i < |list| ==> list[i].id in ids && list[i].wallet == wallets[list[i].id]
    ensures forall id | id in ids :: Mentions(list, id)
    ensures forall i, j :: 0 <= i < j < |list| ==>
              list[i].id != list[j].id && list[i].wallet.createdAt >= list[j].wallet.createdAt
    decreases |ids|
  {
    if ids == {} {
      list := [];
    } else {
      var newest := Newest(wallets, ids);
      var rest := SortedList(wallets, ids - {newest});
      list := [Listed(newest, wallets[newest])] + rest;
      forall id | id in ids ensures Mentions(list, id) {
        if id == newest { assert list[0].id == id; } else {
          assert Mentions(rest, id);
          var i :| 0 <= i < |rest| && rest[i].id == id;
          assert list[i + 1].id == id;
        }
      }
    }
  }

  lemma {:induction false} Newest(wallets: map<int, Wallet>, ids: set<int>) returns (newest: int)
    requires ids != {} && ids <= wallets.Keys
    ensures newest in ids && forall id | id in ids :: wallets[newest].createdAt >= wallets[id].createdAt
    decreases |ids|
  {
    var one := Pick(ids);
    newest := one;
    if ids - {one} != {} {
      var other := Newest(wallets, ids - {one});
      if wallets[other].createdAt > wallets[one].createdAt { newest := other; }
    }
    forall id | id in ids ensures wallets[newest].createdAt >= wallets[id].createdAt {
      assert id == one || id in ids - {one};
    }
  }

  // ---------------------------------------------------------------- operations

  datatype Operation =
    | Deliver(job: Job, fee: int, fails: Failures)
    | Ask(job: Job)
    | Create(userId: int, currency: string, txId: string, newId: int, at: int)
    | Read(userId: int, queried: seq<Listed>)
    | ExpireList(userId: int)
    | ExpireRequest(txId: string)

  ghost predicate Allowed(w: World, op: Operation) {
    match op
    case Deliver(job, fee, fails) => Chargeable(job, fee) && Benign(fails)
    case Create(_, _, _, newId, at) =>
      newId !in w.books.wallets && forall id | id in w.books.wallets :: w.books.wallets[id].createdAt < at
    case Read(userId, queried) => FreshList(queried, w.books.wallets, userId)
    case _ => true
  }

  function After(w: World, op: Operation): World
    requires op.Create? ==> op.newId !in w.books.wallets
  {
    match op
    case Deliver(job, fee, fails) => Handled(w, job, fee, fails).0
    case Ask(job) => Requested(w, job).0
    case Create(userId, currency, txId, newId, at) => CreatedWallet(w, userId, currency, txId, newId, at).0
    case Read(userId, queried) => if userId in w.lists then w else w.(lists := w.lists[userId := queried])
    case ExpireList(userId) => w.(lists := w.lists - {userId})
    case ExpireRequest(txId) => w.(requests := w.requests - {txId})
  }

  /** The wallets funded since the user's entry was filled by a query. A delivery that was skipped,
      rejected or rolled back funded nothing. */
  function FundedSince(w: World, op: Operation, userId: int, funded: set<int>): set<int> {
    if op.Deliver? && op.job.Fund? && GoesThrough(w, op.job, op.fee, op.fails) then funded + {op.job.walletId}
    else if op.Read? && op.userId == userId && userId !in w.lists then {}
    else funded
  }

  /** A present entry lists exactly what a fresh query would, up to the balances of wallets funded
      since it was filled. */
  predicate Coherent(w: World, userId: int, funded: set<int>) {
    userId in w.lists ==>
      ListsWallets(w.lists[userId], w.books.wallets, userId) && UpToDate(w.lists[userId], w.books.wallets, funded)
  }

  // ---------------------------------------------------------------- each operation

  /** Moving money leaves every list right except for the balances it moved. */
  lemma ServedKeepsList(b: Books, job: Job, fee: int, list: seq<Listed>, userId: int, funded: set<int>)
    requires Serve(b, job, fee).Ok?
    requires ListsWallets(list, b.wallets, userId) && UpToDate(list, b.wallets, funded)
    requires userId !in StaleLists(job)
    ensures var after := Serve(b, job, fee).value.wallets;
            && ListsWallets(list, after, userId)
            && UpToDate(list, after, if job.Fund? then funded + {job.walletId} else funded)
  {
    var after := Serve(b, job, fee).value.wallets;
    ServedEffect(b, job, fee, 0);
    assert Vet(job, Find(b.wallets, job.FirstWallet()), SecondRead(b.wallets, job)).Ok?;
    hide Serve;
    forall id | id in b.wallets
      ensures id in after && after[id] == b.wallets[id].(balance := after[id].balance, version := after[id].version)
              && (!job.Names(id) ==> after[id] == b.wallets[id])
    {
      ServedEffect(b, job, fee, id);
    }
    forall id | id in after ensures Mine(after, userId, id) ==> Mentions(list, id) {
      assert Mine(after, userId, id) == Mine(b.wallets, userId, id);
    }
  }

  lemma DeliverKeepsList(w: World, op: Operation, userId: int, funded: set<int>)
    requires Coherent(w, userId, funded) && op.Deliver? && Allowed(w, op)
    ensures Coherent(After(w, op), userId, FundedSince(w, op, userId, funded))
  {
    var job, fails := op.job, op.fails;
    assert !fails.at(Lookup) && !fails.at(DropStale) && !fails.at(PreLog) && !fails.at(Validate)
           && !fails.at(CacheSuccess) && !fails.at(DropLists) && !fails.at(Notify)
           && !fails.at(MarkFailed) && !fails.at(CacheFailed);
    if Serve(w.books, job, op.fee).Ok? && userId in w.lists && userId !in StaleLists(job) {
      ServedKeepsList(w.books, job, op.fee, w.lists[userId], userId, funded);
    }
    hide Serve, ListsWallets, TransactionFails;
  }

  /** Exactly when a funding delivery leaves its user's cached list behind: when it goes through and the list is
      its user's. */
  lemma FundingKeepsListIff(w: World, op: Operation, userId: int)
    requires op.Deliver? && op.job.Fund? && Allowed(w, op)
    requires userId in w.lists && Coherent(w, userId, {})
    ensures Coherent(After(w, op), userId, {}) <==>
              !(op.job.userId == userId && GoesThrough(w, op.job, op.fee, op.fails))
  {
    var job, list, after := op.job, w.lists[userId], After(w, op);
    FundingLeavesLists(w, job, op.fee, op.fails);
    DeliveryMovesIff(w, job, op.fee, op.fails);
    hide Handled, Benign, Chargeable, GoesThrough;
    if after.books != w.books {
      DeliverKeepsList(w, op, userId, {});
      ServedEffect(w.books, job, op.fee, job.walletId);
      assert Owned(Find(w.books.wallets, job.walletId), job.userId, job.currency);
      hide Serve;
      if job.userId == userId {
        assert Mine(w.books.wallets, userId, job.walletId) && Mentions(list, job.walletId);
        var i :| 0 <= i < |list| && list[i].id == job.walletId;
        assert list[i].wallet != after.books.wallets[list[i].id];
      } else {
        assert UpToDate(list, after.books.wallets, {job.walletId});
        forall i | 0 <= i < |list| ensures list[i].id != job.walletId {
          assert Mine(w.books.wallets, userId, list[i].id);
        }
      }
    }
  }

  /** It does happen: wallet 1 of user 7, listed and cached with nothing on it, is funded. */
  lemma StaleAfterFunding()
    ensures var w := World(Books(map[1 := NewWallet(7, "NGN", 0)], []), map[], map[],
                           map[7 := [Listed(1, NewWallet(7, "NGN", 0))]]);
            var op := Operation.Deliver(Fund(7, 1, "NGN", 20000, "t"), 100, Failures(pc => false, {}));
            && Allowed(w, op) && Coherent(w, 7, {})
            && 1 in After(w, op).books.wallets && After(w, op).books.wallets[1].balance == 19900
            && 7 in After(w, op).lists && After(w, op).lists[7] == [Listed(1, NewWallet(7, "NGN", 0))]
  {
    var w := World(Books(map[1 := NewWallet(7, "NGN", 0)], []), map[], map[],
                   map[7 := [Listed(1, NewWallet(7, "NGN", 0))]]);
    assert w.lists[7][0].id == 1;
    FundingLeavesLists(w, Fund(7, 1, "NGN", 20000, "t"), 100, Failures(pc => false, {}));
  }

  lemma FundingLeavesLists(w: World, job: Job, fee: int, fails: Failures)
    requires job.Fund?
    ensures Handled(w, job, fee, fails).0.lists == w.lists
  {
    hide Serve, TransactionFails;
    assert w.lists - {} == w.lists;
  }

  /** createWallet reaches its insert: nothing screened the call, and the user has no wallet in the
      currency. */
  predicate Inserts(w: World, op: Operation)
    requires op.Create?
  {
    var call := Call.Create(op.userId, op.currency, op.txId);
    && !(op.txId in w.requests && Screened(call, w.requests[op.txId]))
    && !Refused(call, TicketOf(w.tickets, op.txId))
    && Vacant(w.books.wallets, op.userId, op.currency)
  }

  /** The call that breaks a list: it reuses the txId of a ticket that is pending or failed, so the
      wallet is inserted, the ticket insert fails, and the cached list is never extended. */
  predicate Strands(w: World, op: Operation) {
    op.Create? && Inserts(w, op) && op.txId in w.tickets && op.userId in w.lists
  }

  lemma NoVacancyIfLive(wallets: map<int, Wallet>, userId: int, currency: string)
    requires Vacant(wallets, userId, currency)
    ensures !LiveWalletExists(wallets, userId, currency)
  {
  }

  /** Exactly when a creation answers with an error although its wallet was inserted: it reaches the insert
      under a txId that has a ticket. */
  lemma ErrorAfterInsertIff(w: World, op: Operation)
    requires op.Create? && op.newId !in w.books.wallets
    ensures var (after, answer) := CreatedWallet(w, op.userId, op.currency, op.txId, op.newId, op.at);
            && (op.newId in after.books.wallets <==> Inserts(w, op))
            && (answer == Errored && op.newId in after.books.wallets <==> Inserts(w, op) && op.txId in w.tickets)
            && (op.newId !in after.books.wallets ==> after.books == w.books)
  {
    if Inserts(w, op) { NoVacancyIfLive(w.books.wallets, op.userId, op.currency); }
    hide Vacant, LiveWalletExists;
  }

  /** Exactly when creating a wallet keeps the cached list of its user coherent. */
  lemma CreateKeepsListIff(w: World, op: Operation, funded: set<int>)
    requires op.Create? && Allowed(w, op) && Coherent(w, op.userId, funded)
    ensures Coherent(After(w, op), op.userId, funded) <==> !Strands(w, op)
  {
    if Inserts(w, op) {
      NoVacancyIfLive(w.books.wallets, op.userId, op.currency);
      if op.userId in w.lists {
        var list, after := w.lists[op.userId], After(w, op).books.wallets;
        hide Vacant, LiveWalletExists, UpToDate, ListsWallets;
        if op.txId in w.tickets {
          UnlistedWallet(list, w.books.wallets, op);
          assert After(w, op).lists[op.userId] == list;
        } else {
          ListExtended(list, w.books.wallets, op, funded);
        }
      }
    }
  }

  lemma UnlistedWallet(list: seq<Listed>, wallets: map<int, Wallet>, op: Operation)
    requires op.Create? && op.newId !in wallets && ListsWallets(list, wallets, op.userId)
    ensures !ListsWallets(list, wallets[op.newId := NewWallet(op.userId, op.currency, op.at)], op.userId)
  {
    var after := wallets[op.newId := NewWallet(op.userId, op.currency, op.at)];
    assert Mine(after, op.userId, op.newId);
    assert !Mentions(list, op.newId);
  }

  lemma ListExtended(list: seq<Listed>, wallets: map<int, Wallet>, op: Operation, funded: set<int>)
    requires op.Create? && op.newId !in wallets && (forall id | id in wallets :: wallets[id].createdAt < op.at)
    requires ListsWallets(list, wallets, op.userId) && UpToDate(list, wallets, funded)
    ensures var wallet := NewWallet(op.userId, op.currency, op.at);
            && ListsWallets([Listed(op.newId, wallet)] + list, wallets[op.newId := wallet], op.userId)
            && UpToDate([Listed(op.newId, wallet)] + list, wallets[op.newId := wallet], funded)
  {
    var wallet := NewWallet(op.userId, op.currency, op.at);
    var longer, after := [Listed(op.newId, wallet)] + list, wallets[op.newId := wallet];
    forall i | 0 <= i < |longer|
      ensures Mine(after, op.userId, longer[i].id) && SameWallet(longer[i].wallet, after[longer[i].id])
    {
      if i > 0 { assert Mine(wallets, op.userId, list[i - 1].id); }
    }
    forall id | id in after ensures Mine(after, op.userId, id) ==> Mentions(longer, id) {
      if id == op.newId { assert longer[0].id == id; }
      else if Mine(after, op.userId, id) {
        assert Mine(wallets, op.userId, id);
        var i :| 0 <= i < |list| && list[i].id == id;
        assert longer[i + 1].id == id;
      }
    }
    forall i, j | 0 <= i < j < |longer|
      ensures longer[i].id != longer[j].id && longer[i].wallet.createdAt >= longer[j].wallet.createdAt
    {
      assert Mine(wallets, op.userId, list[j - 1].id);
      if i > 0 { assert list[i - 1].id != list[j - 1].id; }
    }
  }

  /** Another user's new wallet is no business of this list. */
  lemma ForeignWallet(list: seq<Listed>, wallets: map<int, Wallet>, op: Operation, userId: int, funded: set<int>)
    requires op.Create? && op.newId !in wallets && op.userId != userId
    requires ListsWallets(list, wallets, userId) && UpToDate(list, wallets, funded)
    ensures var after := wallets[op.newId := NewWallet(op.userId, op.currency, op.at)];
            ListsWallets(list, after, userId) && UpToDate(list, after, funded)
  {
    var after := wallets[op.newId := NewWallet(op.userId, op.currency, op.at)];
    forall i | 0 <= i < |list|
      ensures Mine(after, userId, list[i].id) && SameWallet(list[i].wallet, after[list[i].id])
    {
      assert Mine(wallets, userId, list[i].id);
    }
    forall id | id in after ensures Mine(after, userId, id) ==> Mentions(list, id) {
      assert Mine(after, userId, id) ==> Mine(wallets, userId, id);
    }
  }

  lemma OperationKeepsList(w: World, op: Operation, userId: int, funded: set<int>)
    requires Coherent(w, userId, funded) && Allowed(w, op) && !Strands(w, op)
    ensures Coherent(After(w, op), userId, FundedSince(w, op, userId, funded))
  {
    if op.Deliver? { DeliverKeepsList(w, op, userId, funded); }
    else if op.Create? {
      if op.userId == userId { CreateKeepsListIff(w, op, funded); }
      else if userId in w.lists {
        ForeignWallet(w.lists[userId], w.books.wallets, op, userId, funded);
        hide ListsWallets, UpToDate;
      }
    } else {
      hide ListsWallets, UpToDate;
      if op.Read? { FreshIsCoherent(w, op, userId, funded); }
    }
  }

  lemma FreshIsCoherent(w: World, op: Operation, userId: int, funded: set<int>)
    requires Coherent(w, userId, funded) && Allowed(w, op) && op.Read?
    ensures Coherent(After(w, op), userId, FundedSince(w, op, userId, funded))
  {
  }

  // ---------------------------------------------------------------- runs

  /** Operation i takes world i and its funded set to the next ones. */
  ghost predicate Performs(worlds: seq<World>, ops: seq<Operation>, userId: int, funded: seq<set<int>>, i: nat)
    requires i < |ops| && |worlds| == |funded| == |ops| + 1
  {
    && Allowed(worlds[i], ops[i])
    && worlds[i + 1] == After(worlds[i], ops[i])
    && funded[i + 1] == FundedSince(worlds[i], ops[i], userId, funded[i])
  }

  /** The worlds and the funded sets a sequence of operations goes through. */
  ghost predicate SequentialRun(worlds: seq<World>, ops: seq<Operation>, userId: int, funded: seq<set<int>>) {
    && |worlds| == |funded| == |ops| + 1
    && worlds[0].lists == map[]
    && forall i :: 0 <= i < |ops| ==> Performs(worlds, ops, userId, funded, i)
  }

  /** Cached lists stay coherent through every sequential no-fault run that never creates a wallet under
      the txId of an unsuccessful ticket while its user's list is cached. */
  lemma {:induction false} ListsStayCoherent(worlds: seq<World>, ops: seq<Operation>, userId: int,
                                             funded: seq<set<int>>, n: nat)
    requires SequentialRun(worlds, ops, userId, funded) && n <= |ops|
    requires forall i :: 0 <= i < n ==> !Strands(worlds[i], ops[i])
    ensures Coherent(worlds[n], userId, funded[n])
  {
    hide Coherent, After, FundedSince, Strands;
    if n > 0 {
      ListsStayCoherent(worlds, ops, userId, funded, n - 1);
      assert Performs(worlds, ops, userId, funded, n - 1);
      OperationKeepsList(worlds[n - 1], ops[n - 1], userId, funded[n - 1]);
    } else {
      EmptyIsCoherent(worlds[0], userId, funded[0]);
    }
  }

  lemma EmptyIsCoherent(w: World, userId: int, funded: set<int>)
    requires w.lists == map[]
    ensures Coherent(w, userId, funded)
  {
  }

  lemma ServedKeepsTimes(b: Books, job: Job, fee: int)
    requires Serve(b, job, fee).Ok? && DistinctTimes(b.wallets)
    ensures DistinctTimes(Serve(b, job, fee).value.wallets)
  {
    var after := Serve(b, job, fee).value.wallets;
    ServedEffect(b, job, fee, 0);
    hide Serve;
    forall id | id in b.wallets ensures after[id].createdAt == b.wallets[id].createdAt {
      ServedEffect(b, job, fee, id);
    }
  }

  lemma TimesStayDistinct(w: World, op: Operation)
    requires Allowed(w, op) && DistinctTimes(w.books.wallets)
    ensures DistinctTimes(After(w, op).books.wallets)
  {
    if op.Deliver? {
      if Serve(w.books, op.job, op.fee).Ok? { ServedKeepsTimes(w.books, op.job, op.fee); }
      DeliveryMovesIff(w, op.job, op.fee, op.fails);
      hide Handled, GoesThrough, Serve, DistinctTimes, Benign, Chargeable;
    } else {
      hide Refused, Screened, Vacant, LiveWalletExists, Handled, FreshList, Chargeable, Benign;
    }
  }

  lemma {:induction false} TimesDistinctThroughout(worlds: seq<World>, ops: seq<Operation>, userId: int,
                                                   funded: seq<set<int>>, n: nat)
    requires SequentialRun(worlds, ops, userId, funded) && n <= |ops| && DistinctTimes(worlds[0].books.wallets)
    ensures DistinctTimes(worlds[n].books.wallets)
  {
    hide After, FundedSince, DistinctTimes;
    if n > 0 {
      TimesDistinctThroughout(worlds, ops, userId, funded, n - 1);
      assert Performs(worlds, ops, userId, funded, n - 1);
      TimesStayDistinct(worlds[n - 1], ops[n - 1]);
    }
  }

  /** So a cached list shows what a query would return now: the same wallets in the same order, and the
      same rows but for the wallets funded since the list was filled. */
  lemma CachedListIsFresh(worlds: seq<World>, ops: seq<Operation>, userId: int, funded: seq<set<int>>, n: nat,
                          queried: seq<Listed>)
    requires SequentialRun(worlds, ops, userId, funded) && n <= |ops| && DistinctTimes(worlds[0].books.wallets)
    requires forall i :: 0 <= i < n ==> !Strands(worlds[i], ops[i])
    requires userId in worlds[n].lists && FreshList(queried, worlds[n].books.wallets, userId)
    ensures var cached := worlds[n].lists[userId];
            && |cached| == |queried|
            && forall i :: 0 <= i < |queried| ==>
                 && cached[i].id == queried[i].id
                 && cached[i].wallet.currency == queried[i].wallet.currency
                 && (queried[i].id !in funded[n] ==> cached[i] == queried[i])
  {
    ListsStayCoherent(worlds, ops, userId, funded, n);
    TimesDistinctThroughout(worlds, ops, userId, funded, n);
    var cached, wallets := worlds[n].lists[userId], worlds[n].books.wallets;
    OneOrder(cached, queried, wallets, userId);
    hide SequentialRun, Strands, DistinctTimes, Mentions;
    forall i | 0 <= i < |queried|
      ensures cached[i].wallet.currency == queried[i].wallet.currency
      ensures queried[i].id !in funded[n] ==> cached[i] == queried[i]
    {
      assert Mine(wallets, userId, cached[i].id) && Mine(wallets, userId, queried[i].id);
    }
  }

  /** The breaking call does happen: after a failed job "t", createWallet(7, "NGN", "t") answers with an
      error, yet the wallet exists and the cached list never shows it. */
  lemma StrandedWallet()
    ensures var w := World(Books(map[], []), map["t" := Ticket(7, "NGN", Failed)], map[], map[7 := []]);
            var op := Operation.Create(7, "NGN", "t", 1, 0);
            && Allowed(w, op) && Coherent(w, 7, {})
            && CreatedWallet(w, 7, "NGN", "t", 1, 0).1 == Errored
            && Mine(After(w, op).books.wallets, 7, 1)
            && !Coherent(After(w, op), 7, {})
  {
    var w := World(Books(map[], []), map["t" := Ticket(7, "NGN", Failed)], map[], map[7 := []]);
    var op := Operation.Create(7, "NGN", "t", 1, 0);
    assert Coherent(w, 7, {});
    CreateKeepsListIff(w, op, {});
  }
}
