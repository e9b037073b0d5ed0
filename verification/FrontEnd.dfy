/** The request front end, statement by statement: it screens the txId through cache and table and
    queues a job, creates wallets, and reads wallet lists through the cache. */
module FrontEnd {
  import opened Domain
  import opened History
  import opened Retry
  import opened Machine
  import opened Handlers
  import opened Store
  import Processors
  import WalletLists

  class WalletsService {
    const prisma: PrismaService
    const redis: RedisService
    const rabbit: RabbitMQService<Job>

    constructor (prisma: PrismaService, redis: RedisService, rabbit: RabbitMQService<Job>)
      ensures this.prisma == prisma && this.redis == redis && this.rabbit == rabbit
    {
      this.prisma, this.redis, this.rabbit := prisma, redis, rabbit;
    }

    function World(): Handlers.World
      reads this, prisma, redis
    {
      Processors.WorldOf(prisma, redis)
    }

    /** Any cached status at all makes a funding a duplicate. The answer does not tell whether the
        broker was reachable. */
    method FundWallet(job: Job, reachable: bool) returns (answer: Answer)
      requires job.Fund?
      modifies redis`requests, rabbit`ready
      ensures (World(), answer) == Requested(old(World()), job)
      ensures answer == Duplicate <==> job.txId in old(redis.requests) || job.txId in old(prisma.tickets)
      ensures answer != Duplicate ==> answer == Queued
      ensures rabbit.ready == old(rabbit.ready)
                              + if answer == Queued && reachable then multiset{Envelope(job, 0)} else multiset{}
    {
      var cached := redis.GetRequest(job.txId);
      if cached.Some? { return Duplicate; }
      var existing := prisma.FindTicket(job.txId);
      if existing.Some? {
        redis.SetRequest(job.txId, existing.value.status);
        return Duplicate;
      }
      rabbit.SendToQueue(Envelope(job, 0), reachable);
      answer := Queued;
    }

    /** withdrawFromWallet and transferFunds screen alike: only a final cached status counts. */
    method WithdrawOrTransfer(job: Job, reachable: bool) returns (answer: Answer)
      requires !job.Fund?
      modifies redis`requests, rabbit`ready
      ensures (World(), answer) == Requested(old(World()), job)
      ensures answer == Duplicate <==>
                || (job.txId in old(redis.requests)
                    && (old(redis.requests)[job.txId] == Success || old(redis.requests)[job.txId] == Failed))
                || job.txId in old(prisma.tickets)
      ensures answer != Duplicate ==> answer == Queued
      ensures rabbit.ready == old(rabbit.ready)
                              + if answer == Queued && reachable then multiset{Envelope(job, 0)} else multiset{}
    {
      var cached := redis.GetRequest(job.txId);
      if cached.Some? {
        if cached.value == Success || cached.value == Failed { return Duplicate; }
      }
      var existing := prisma.FindTicket(job.txId);
      if existing.Some? {
        redis.SetRequest(job.txId, existing.value.status);
        return Duplicate;
      }
      rabbit.SendToQueue(Envelope(job, 0), reachable);
      answer := Queued;
    }

    /** The id and creation time of the new row come from the database and the clock. */
    method CreateWallet(userId: int, currency: string, txId: string, newId: int, at: int) returns (answer: Answer)
      requires newId !in prisma.wallets
      modifies prisma`wallets, prisma`tickets, redis
      ensures (World(), answer) == CreatedWallet(old(World()), userId, currency, txId, newId, at)
      ensures answer == Duplicate <==>
                || (txId in old(redis.requests) && old(redis.requests)[txId] == Success)
                || (txId in old(prisma.tickets) && old(prisma.tickets)[txId].status == Success)
                || (exists id | id in old(prisma.wallets) ::
                      && old(prisma.wallets)[id].userId == userId && old(prisma.wallets)[id].currency == currency
                      && !old(prisma.wallets)[id].deleted)
      ensures answer == Created ==>
                && prisma.wallets == old(prisma.wallets)[newId := Wallet(userId, currency, 0, 0, at, false)]
                && prisma.tickets == old(prisma.tickets)[txId := Ticket(userId, currency, Success)]
    {
      CreationAnswers(World(), userId, currency, txId, newId, at);
      var cached := redis.GetRequest(txId);
      if cached.Some? {
        if cached.value == Success { return Duplicate; }
      }
      var existing := prisma.FindTicket(txId);
      if existing.Some? && existing.value.status == Success {
        redis.SetRequest(txId, existing.value.status);
        return Duplicate;
      }
      if LiveWalletExists(prisma.wallets, userId, currency) { return Duplicate; }
      var inserted := prisma.CreateWallet(newId, userId, currency, at);
      if !inserted { return Errored; }
      var logged := prisma.CreateTicket(txId, Ticket(userId, currency, Success));
      if !logged { return Errored; }
      redis.SetRequest(txId, Success);
      var wallets := redis.GetList(userId);
      if wallets.Some? {
        redis.SetList(userId, [Listed(newId, NewWallet(userId, currency, at))] + wallets.value);
      }
      answer := Created;
    }

    /** Read-through: `queried` is what the database would answer. */
    method GetUserWallets(userId: int, queried: seq<Listed>) returns (list: seq<Listed>)
      requires WalletLists.FreshList(queried, prisma.wallets, userId)
      modifies redis`lists
      ensures World() == WalletLists.After(old(World()), WalletLists.Read(userId, queried))
      ensures userId in redis.lists && list == redis.lists[userId]
      ensures userId in old(redis.lists) ==> list == old(redis.lists)[userId] && redis.lists == old(redis.lists)
      ensures userId !in old(redis.lists) ==> list == queried && redis.lists == old(redis.lists)[userId := queried]
      ensures forall i :: 0 <= i < |queried| ==>
                && queried[i].id in prisma.wallets && queried[i].wallet == prisma.wallets[queried[i].id]
                && queried[i].wallet.userId == userId && !queried[i].wallet.deleted
      ensures forall id | id in prisma.wallets :: prisma.wallets[id].userId == userId && !prisma.wallets[id].deleted ==>
                exists i :: 0 <= i < |queried| && queried[i].id == id
      ensures forall i, j :: 0 <= i < j < |queried| ==>
                queried[i].id != queried[j].id && queried[i].wallet.createdAt >= queried[j].wallet.createdAt
    {
      var cached := redis.GetList(userId);
      if cached.Some? { return cached.value; }
      redis.SetList(userId, queried);
      list := queried;
    }
  }
}
