/** The three queue handlers, statement by statement. `fails` says which awaits fail; each handler is
    proved to do what Handlers.Handled says, so a transaction is all or nothing wherever it stops. */
module Processors {
  import opened Domain
  import opened Fees
  import opened Books
  import opened Machine
  import opened Handlers
  import opened Store

  /** The state both services hold between them. */
  function WorldOf(prisma: PrismaService, redis: RedisService): World
    reads prisma, redis
  {
    World(Books(prisma.wallets, prisma.ledger), prisma.tickets, redis.requests, redis.lists)
  }

  /** The tables after the whole of a job. */
  function Posting(before: Tables, job: Job, fee: int): Tables
    requires Serve(before.books, job, fee).Ok?
  {
    Tables(Serve(before.books, job, fee).value, MarkTicket(before.tickets, job.txId, Success))
  }

  /** What a transaction must do: everything, or nothing. */
  twostate predicate AllOrNothing(prisma: PrismaService, job: Job, fee: int, fails: Failures, committed: bool)
    reads prisma
  {
    var before := old(prisma.Contents());
    && prisma.saved.None?
    && (committed <==> !TransactionFails(job, fails) && Serve(before.books, job, fee).Ok? && job.txId in before.tickets)
    && (committed ==> prisma.Contents() == Posting(before, job, fee))
    && (!committed ==> prisma.Contents() == before)
  }

  /** Idempotency check and pre-log, as each handler opens. */
  method Admit(prisma: PrismaService, redis: RedisService, job: Job, fails: Failures) returns (r: Admission)
    modifies prisma`tickets, redis`requests
    ensures (WorldOf(prisma, redis), r) == Admitted(old(WorldOf(prisma, redis)), job, fails)
  {
    if fails.at(Lookup) { return Raise; }
    var cached := redis.GetRequest(job.txId);
    if cached.Some? {
      if cached.value == Success || cached.value == Failed { return Skip; }
      if fails.at(DropStale) { return Raise; }
      redis.DelRequest(job.txId);
    }
    assert redis.requests == old(redis.requests) - {job.txId};
    if fails.at(PreLog) { return Raise; }
    var created := prisma.CreateTicket(job.txId, Ticket(job.Requester(), job.currency, Pending));
    r := if created then Enter else Skip;
  }

  /** The catch block of each handler. */
  method Catch(prisma: PrismaService, redis: RedisService, job: Job, fails: Failures) returns (outcome: Outcome)
    modifies prisma`tickets, redis`requests
    ensures (WorldOf(prisma, redis), outcome) == Caught(old(WorldOf(prisma, redis)), job, fails)
  {
    if fails.at(MarkFailed) { return Threw; }
    var _ := prisma.UpdateTicket(job.txId, Failed);
    if fails.at(CacheFailed) { return Threw; }
    redis.SetRequest(job.txId, Failed);
    outcome := if job.Withdraw? then Returned else Threw;
  }

  class WalletTransferProcessor {
    const prisma: PrismaService
    const redis: RedisService

    constructor (prisma: PrismaService, redis: RedisService)
      ensures this.prisma == prisma && this.redis == redis
    {
      this.prisma, this.redis := prisma, redis;
    }

    /** The body of the transaction; it may stop halfway. */
    method Body(job: Job, fails: Failures) returns (ok: bool)
      requires job.Transfer?
      modifies prisma`wallets, prisma`ledger, prisma`tickets
      ensures var before := old(prisma.Contents());
              && (ok <==> !fails.at(ReadFirst) && !fails.at(ReadSecond)
                          && !fails.at(UpdateFirst) && !fails.at(UpdateSecond)
                          && !fails.at(WriteLedger) && !fails.at(WriteTicket)
                          && Serve(before.books, job, 0).Ok? && job.txId in before.tickets)
              && (ok ==> prisma.Contents() == Posting(before, job, 0))
    {
      if fails.at(ReadFirst) { return false; }
      var sender := prisma.FindWallet(job.senderWalletId);
      if fails.at(ReadSecond) { return false; }
      var recipient := prisma.FindWallet(job.recipientWalletId);
      if !Owned(sender, job.senderId, job.currency) { return false; }
      if !Owned(recipient, job.recipientId, job.currency) { return false; }
      if sender.value.balance < job.amount { return false; }
      if fails.at(UpdateFirst) { return false; }
      var debited := prisma.UpdateWallet(job.senderWalletId, sender.value.version, -job.amount);
      if !debited { return false; }
      if fails.at(UpdateSecond) { return false; }
      var credited := prisma.UpdateWallet(job.recipientWalletId, recipient.value.version, job.amount);
      if !credited { return false; }
      if fails.at(WriteLedger) { return false; }
      var logged := prisma.InsertRows([
        Row(job.senderId, job.senderWalletId, TRANSFER, job.amount, 0,
            SenderReference(job.txId), To(job.recipientWalletId)),
        Row(job.recipientId, job.recipientWalletId, DEPOSIT, job.amount, 0,
            RecipientReference(job.txId), From(job.senderWalletId))]);
      if !logged { return false; }
      if fails.at(WriteTicket) { return false; }
      ok := prisma.UpdateTicket(job.txId, Success);
    }

    method Transact(job: Job, fails: Failures) returns (committed: bool)
      requires job.Transfer? && prisma.saved.None?
      modifies prisma
      ensures AllOrNothing(prisma, job, 0, fails, committed)
    {
      if fails.at(Pc.Begin) { return false; }
      prisma.Begin();
      committed := Body(job, fails);
      if committed && !fails.at(Pc.Commit) { prisma.Commit(); } else { prisma.Rollback(); committed := false; }
    }

    /** From the commit to the end of the handler. */
    method Finish(job: Job, fails: Failures) returns (outcome: Outcome)
      requires job.Transfer?
      modifies prisma`tickets, redis
      ensures (WorldOf(prisma, redis), outcome) == Wound(old(WorldOf(prisma, redis)), job, fails)
    {
      if fails.at(CacheSuccess) { outcome := Catch(prisma, redis, job, fails); return; }
      redis.SetRequest(job.txId, Success);
      if !fails.at(DropLists) || job.senderId in fails.dropped { redis.DelList(job.senderId); }
      if !fails.at(DropLists) || job.recipientId in fails.dropped { redis.DelList(job.recipientId); }
      assert redis.lists == old(redis.lists)
             - if fails.at(DropLists) then StaleLists(job) * fails.dropped else StaleLists(job);
      if fails.at(DropLists) { outcome := Catch(prisma, redis, job, fails); return; }
      if fails.at(Notify) { outcome := Catch(prisma, redis, job, fails); return; }
      outcome := Returned;
    }

    method Handle(job: Job, fails: Failures) returns (outcome: Outcome)
      requires job.Transfer? && prisma.saved.None?
      modifies prisma, redis
      ensures prisma.saved.None?
      ensures (WorldOf(prisma, redis), outcome) == Handled(old(WorldOf(prisma, redis)), job, 0, fails)
    {
      var admission := Admit(prisma, redis, job, fails);
      if admission.Skip? { return Returned; }
      if admission.Raise? { outcome := Catch(prisma, redis, job, fails); return; }
      var committed := Transact(job, fails);
      if !committed { outcome := Catch(prisma, redis, job, fails); return; }
      outcome := Finish(job, fails);
    }
  }

  class WalletWithdrawalProcessor {
    const prisma: PrismaService
    const redis: RedisService

    constructor (prisma: PrismaService, redis: RedisService)
      ensures this.prisma == prisma && this.redis == redis
    {
      this.prisma, this.redis := prisma, redis;
    }

    method Body(job: Job, fails: Failures) returns (ok: bool)
      requires job.Withdraw?
      modifies prisma`wallets, prisma`ledger, prisma`tickets
      ensures var before := old(prisma.Contents());
              && (ok <==> !fails.at(ReadFirst) && !fails.at(UpdateFirst)
                          && !fails.at(WriteTicket) && !fails.at(WriteLedger)
                          && Serve(before.books, job, 0).Ok? && job.txId in before.tickets)
              && (ok ==> prisma.Contents() == Posting(before, job, 0))
    {
      if fails.at(ReadFirst) { return false; }
      var wallet := prisma.FindWallet(job.walletId);
      if !Owned(wallet, job.userId, job.currency) { return false; }
      if wallet.value.balance < job.amount { return false; }
      if fails.at(UpdateFirst) { return false; }
      var debited := prisma.UpdateWallet(job.walletId, wallet.value.version, -job.amount);
      if !debited { return false; }
      if fails.at(WriteTicket) { return false; }
      var marked := prisma.UpdateTicket(job.txId, Success);
      if !marked { return false; }
      if fails.at(WriteLedger) { return false; }
      ok := prisma.InsertRows([Row(job.userId, job.walletId, WITHDRAWAL, job.amount, 0, job.txId, NoMetadata)]);
    }

    method Transact(job: Job, fails: Failures) returns (committed: bool)
      requires job.Withdraw? && prisma.saved.None?
      modifies prisma
      ensures AllOrNothing(prisma, job, 0, fails, committed)
    {
      if fails.at(Pc.Begin) { return false; }
      prisma.Begin();
      committed := Body(job, fails);
      if committed && !fails.at(Pc.Commit) { prisma.Commit(); } else { prisma.Rollback(); committed := false; }
    }

    /** From the commit to the end of the handler. */
    method Finish(job: Job, fails: Failures) returns (outcome: Outcome)
      requires job.Withdraw?
      modifies prisma`tickets, redis
      ensures (WorldOf(prisma, redis), outcome) == Wound(old(WorldOf(prisma, redis)), job, fails)
    {
      if fails.at(CacheSuccess) { outcome := Catch(prisma, redis, job, fails); return; }
      redis.SetRequest(job.txId, Success);
      if !fails.at(DropLists) || job.userId in fails.dropped { redis.DelList(job.userId); }
      assert redis.lists == old(redis.lists)
             - if fails.at(DropLists) then StaleLists(job) * fails.dropped else StaleLists(job);
      if fails.at(DropLists) { outcome := Catch(prisma, redis, job, fails); return; }
      if fails.at(Notify) { outcome := Catch(prisma, redis, job, fails); return; }
      outcome := Returned;
    }

    method Handle(job: Job, fails: Failures) returns (outcome: Outcome)
      requires job.Withdraw? && prisma.saved.None?
      modifies prisma, redis
      ensures prisma.saved.None?
      ensures (WorldOf(prisma, redis), outcome) == Handled(old(WorldOf(prisma, redis)), job, 0, fails)
    {
      var admission := Admit(prisma, redis, job, fails);
      if admission.Skip? { return Returned; }
      if admission.Raise? { outcome := Catch(prisma, redis, job, fails); return; }
      var committed := Transact(job, fails);
      if !committed { outcome := Catch(prisma, redis, job, fails); return; }
      outcome := Finish(job, fails);
    }
  }

  class WalletFundingProcessor {
    const prisma: PrismaService
    const redis: RedisService

    constructor (prisma: PrismaService, redis: RedisService)
      ensures this.prisma == prisma && this.redis == redis
    {
      this.prisma, this.redis := prisma, redis;
    }

    /** Inside the transaction only the existence of the wallet is checked. */
    method Body(job: Job, fee: int, fails: Failures) returns (ok: bool)
      requires job.Fund?
      modifies prisma`wallets, prisma`ledger, prisma`tickets
      ensures var before := old(prisma.Contents());
              && (ok <==> !fails.at(ReadFirst) && !fails.at(UpdateFirst)
                          && !fails.at(WriteTicket) && !fails.at(WriteLedger)
                          && job.walletId in before.books.wallets && job.txId in before.tickets
                          && Insertable(before.books.ledger, RowsOf(job, fee)))
              && (ok && Owned(Find(before.books.wallets, job.walletId), job.userId, job.currency) ==>
                    Serve(before.books, job, fee).Ok? && prisma.Contents() == Posting(before, job, fee))
    {
      if fails.at(ReadFirst) { return false; }
      var current := prisma.FindWallet(job.walletId);
      if current.None? { return false; }
      if fails.at(UpdateFirst) { return false; }
      var credited := prisma.UpdateWallet(job.walletId, current.value.version, job.amount - fee);
      if !credited { return false; }
      if fails.at(WriteTicket) { return false; }
      var marked := prisma.UpdateTicket(job.txId, Success);
      if !marked { return false; }
      if fails.at(WriteLedger) { return false; }
      ok := prisma.InsertRows([Row(job.userId, job.walletId, DEPOSIT, job.amount - fee, fee, job.txId, NoMetadata)]);
    }

    /** Validation and fee come first, then the transaction. */
    method Transact(job: Job, fails: Failures) returns (committed: bool, fee: int)
      requires job.Fund? && prisma.saved.None?
      modifies prisma
      ensures IsFee(job.amount, fee)
      ensures AllOrNothing(prisma, job, fee, fails, committed)
    {
      fee := FundingFee(job.amount);
      if fails.at(Validate) { return false, fee; }
      var wallet := prisma.FindWallet(job.walletId);
      if !Owned(wallet, job.userId, job.currency) { return false, fee; }
      if fails.at(Pc.Begin) { return false, fee; }
      prisma.Begin();
      committed := Body(job, fee, fails);
      if committed && !fails.at(Pc.Commit) { prisma.Commit(); } else { prisma.Rollback(); committed := false; }
    }

    /** From the commit to the end of the handler. */
    method Finish(job: Job, fails: Failures) returns (outcome: Outcome)
      requires job.Fund?
      modifies prisma`tickets, redis
      ensures (WorldOf(prisma, redis), outcome) == Wound(old(WorldOf(prisma, redis)), job, fails)
    {
      if fails.at(CacheSuccess) { outcome := Catch(prisma, redis, job, fails); return; }
      redis.SetRequest(job.txId, Success);
      assert redis.lists == old(redis.lists) - {};
      if fails.at(Notify) { outcome := Catch(prisma, redis, job, fails); return; }
      outcome := Returned;
    }

    method Handle(job: Job, fails: Failures) returns (outcome: Outcome, fee: int)
      requires job.Fund? && prisma.saved.None?
      modifies prisma, redis
      ensures prisma.saved.None? && IsFee(job.amount, fee)
      ensures (WorldOf(prisma, redis), outcome) == Handled(old(WorldOf(prisma, redis)), job, fee, fails)
    {
      fee := FundingFee(job.amount);
      var admission := Admit(prisma, redis, job, fails);
      if admission.Skip? { return Returned, fee; }
      if admission.Raise? { outcome := Catch(prisma, redis, job, fails); return; }
      var committed;
      committed, fee := Transact(job, fails);
      if !committed { outcome := Catch(prisma, redis, job, fails); return; }
      outcome := Finish(job, fails);
    }
  }
}
